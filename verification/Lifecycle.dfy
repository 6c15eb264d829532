/** The operations of a delivery harness as plans: the durable writes each performs, in order, and its outcome.

    A crash leaves the effect of some prefix of the writes. */
module Lifecycle {
  import opened Basics
  import opened Integration
  import opened Records
  import opened Workflows
  import opened Prerequisites
  import opened Reservations
  import Lineage

  datatype Kind = Main | Candidate

  /** Durable state, and the surroundings an operation reads. `names` is the directory order of the records. */
  datatype State = State(
    kind: Kind,
    names: seq<string>,
    records: map<string, Run>,
    active: Option<string>,
    files: Tree,
    head: Revision,
    environment: string,
    logs: map<Log, string>,
    pools: Pools,
    busy: set<string>)

  datatype Write =
    | Save(run: Run)
    | Claim(id: string)
    | Release
    | Replace(path: Path, content: Option<string>)
    | CommandRan(files: Tree, head: Revision)
    | WriteLog(log: Log, text: string)

  function Put(s: State, w: Write): State {
    match w
    case Save(run) =>
      s.(names := if run.task.id in s.records then s.names else s.names + [run.task.id],
         records := s.records[run.task.id := run])
    case Claim(id) => s.(active := Some(id))
    case Release => s.(active := None)
    case Replace(path, content) =>
      s.(files := if content.Some? then s.files[path := content.value] else s.files - {path})
    case CommandRan(files, head) => s.(files := files, head := head)
    case WriteLog(log, text) => s.(logs := s.logs[log := text])
  }

  function Perform(s: State, writes: seq<Write>): State {
    if writes == [] then s else Put(Perform(s, writes[..|writes| - 1]), writes[|writes| - 1])
  }

  datatype Refusal =
    | RecordMissing | WriterMismatch | RunNotActive | HandoffRequired | BaseMoved | OutOfScopeChange
    | RunAlreadyExists | WriterAlreadyClaimed | ActiveCandidates | AdoptionMismatch
    | HandoffAlreadyBound | RouteMismatch | SourceNotReady | StalePrerequisites
    | UnknownCheck | LogExists
    | PendingRequestRequired | ResponseSourceMismatch | InvalidRootApplication | ExecutorMismatch
    | IndependentReviewRequired | FreshReviewRequired | StaleReview
    | PendingApiRequestRequired | ApiEvidenceMismatch | FallbackNotAuthorized | FreshExecutorRequired
    | CapabilityRepairRequired | CapableNativeRequired
    | MainOnly | ExactCommitRequired | CommitScopeMismatch | UncommittedScope | EvidenceInvalid | VerificationFailed
    | PausedOwnerRequired | IntegrationActiveDependency
    | PausedRunRequired | CompleteSuccessorRequired | SuccessorDescendantRequired
    | DirtyCanonical | CustodyInvalid | OwnerMismatch | CandidateIdentity | CandidateBusy | CandidateNotReviewed
    | RevalidationStale | InputChanged | UnacceptedDrift | NoChange | LogMissing
    | IntegrationIdentity | IntegrationInputChanged | CandidateSourceChanged

  datatype Outcome = Done(run: Run) | Acted(action: Action) | Refused(why: Refusal)
  datatype Plan = Plan(writes: seq<Write>, outcome: Outcome)

  function Refuse(why: Refusal): Plan {
    Plan([], Refused(why))
  }

  function Store(run: Run): Plan {
    Plan([Save(run)], Done(run))
  }

  // ----- Shared guards -----

  datatype Access = Granted(run: Run, source: Tree) | Denied(why: Refusal)

  /** `own`: the claimed writer of an active run. */
  function Own(s: State, run: Run, owner: string, needHandoff: bool): Option<Refusal> {
    if owner != run.task.owner || s.active != Some(run.task.id) then Some(WriterMismatch)
    else if run.status != Active && run.status != AwaitingNative then Some(RunNotActive)
    else if needHandoff && run.status != Active then Some(HandoffRequired)
    else None
  }

  /** `source`: the base has not moved and nothing outside the scope has changed. */
  function SourceRefusal(s: State, run: Run): Option<Refusal> {
    if s.head != run.baseCommit then Some(BaseMoved)
    else if Outside(s.files, Elements(run.task.scope)) != run.outside then Some(OutOfScopeChange)
    else None
  }

  function Authorize(s: State, id: string, owner: string, needHandoff: bool): Access {
    if id !in s.records then Denied(RecordMissing)
    else
      var run := s.records[id];
      var owned := Own(s, run, owner, needHandoff);
      if owned.Some? then Denied(owned.value)
      else
        var moved := SourceRefusal(s, run);
        if moved.Some? then Denied(moved.value) else Granted(run, s.files)
  }

  function AnyReservation(s: State): bool {
    s.kind == Main && Reservations.Active(s.pools, s.busy) != {}
  }

  /** The reservation guard of taking up a run again. */
  function ResumeRefusal(s: State, run: Run): Option<Refusal> {
    if run.integration.None? then (if AnyReservation(s) then Some(ActiveCandidates) else None)
    else if s.kind == Main
            && !IntegrationFree(Reservations.Active(s.pools, s.busy), Elements(run.task.scope),
                                run.integration.value.custody.resources)
    then Some(IntegrationActiveDependency)
    else None
  }

  function Valid(s: State, run: Run, source: Tree): set<string> {
    ValidChecks(run, source, s.environment, s.logs)
  }

  function Noting(run: Run, event: Event): Run {
    run.(events := run.events + [event])
  }

  // ----- Authoring -----


  /** Scoped paths that differ from the committed tree. */
  function Dirty(s: State, scope: seq<Path>): set<Path> {
    set path | path in scope && Get(s.files, path) != Get(s.head.tree, path)
  }

  function NewRun(s: State, task: Task): Run {
    Run(task, SelectRoute(task), s.head, Outside(s.files, Elements(task.scope)), AwaitingNative, [], [], [],
        Workflow([], [], []), None, None, None)
  }

  function BeginPlan(s: State, task: Task): Plan {
    if AnyReservation(s) then Refuse(ActiveCandidates)
    else if task.id in s.records then Refuse(RunAlreadyExists)
    else if Dirty(s, task.scope) != task.adopted then Refuse(AdoptionMismatch)
    else if s.active.Some? then Refuse(WriterAlreadyClaimed)
    else Plan([Save(NewRun(s, task)), Claim(task.id)], Done(NewRun(s, task)))
  }

  function BindPlan(s: State, id: string, owner: string, handoff: Handoff): Plan {
    match Authorize(s, id, owner, false)
    case Denied(why) => Refuse(why)
    case Granted(run, _) =>
      if run.status != AwaitingNative then Refuse(HandoffAlreadyBound)
      else if handoff.route != run.route then Refuse(RouteMismatch)
      else Store(run.(handoffs := run.handoffs + [handoff], status := Active))
  }

  function NextPlan(s: State, id: string, owner: string): Plan {
    if id !in s.records then Refuse(RecordMissing)
    else if s.records[id].task.owner != owner then Refuse(WriterMismatch)
    else if s.records[id].status == Paused then Plan([], Acted(Stopped(OperatorPaused)))
    else
      match Authorize(s, id, owner, true)
      case Denied(why) => Refuse(why)
      case Granted(run, source) =>
        var decision := NextAction(run, source, Valid(s, run, source));
        if decision.SourceMismatch? then Refuse(SourceNotReady)
        else if decision.action.Native?
                && !PrerequisitesIntact(decision.run, decision.action.request, s.environment, s.logs)
        then Refuse(StalePrerequisites)
        else Plan([Save(decision.run)], Acted(decision.action))
  }

  // ----- Checks -----

  /** What the check command does: how it ends, what it prints, and the tree and head it leaves behind. */
  datatype Command = Command(success: bool, stdout: string, stderr: string, files: Tree, head: Revision)

  function StartCount(events: seq<Event>, id: string): nat {
    if events == [] then 0
    else
      var last := events[|events| - 1];
      StartCount(events[..|events| - 1], id) + if last.CheckStart? && last.id == id then 1 else 0
  }

  function Started(run: Run, id: string): Run {
    Noting(run, CheckStart(id, StartCount(run.events, id) + 1))
  }

  /** The recorded result; an unreadable source after the command fails the check. */
  function CheckOf(s: State, run: Run, spec: CheckSpec, command: Command): Check {
    var moved := SourceRefusal(s.(files := command.files, head := command.head), run);
    var after := if moved.Some? then None else Some(command.files);
    Check(spec, StartCount(run.events, spec.id) + 1, s.files, after, s.environment, command.stdout, command.stderr,
          command.success && after == Some(s.files))
  }

  function FindCheck(task: Task, id: string): Option<CheckSpec> {
    FirstWhere(task.checks, (check: CheckSpec) => check.id == id)
  }

  function CheckPlan(s: State, id: string, owner: string, checkId: string, command: Command): Plan {
    match Authorize(s, id, owner, true)
    case Denied(why) => Refuse(why)
    case Granted(run, _) =>
      var spec := FindCheck(run.task, checkId);
      if spec.None? then Refuse(UnknownCheck)
      else
        var started, check := Started(run, checkId), CheckOf(s, run, spec.value, command);
        var out, err := LogOf(id, check, Stdout), LogOf(id, check, Stderr);
        if out in s.logs || err in s.logs then Plan([Save(started)], Refused(LogExists))
        else
          var checked := started.(checks := run.checks + [check], verdict := None);
          Plan([Save(started), CommandRan(command.files, command.head),
                WriteLog(out, command.stdout), WriteLog(err, command.stderr), Save(checked)], Done(checked))
  }

  // ----- Submitting -----

  /** The source of the last settled result that was not itself a refusal for lack of progress. */
  function PriorSource(results: seq<StageResult>): Option<Tree> {
    var prior := LastWhere(results, (result: StageResult) => !IsTransport(result) && NoProgress !in result.reasons);
    if prior.Some? then Some(prior.value.response.source) else None
  }

  predicate Idle(run: Run, source: Tree, request: Request, response: Response) {
    var prior := PriorSource(run.workflow.results);
    && request.stage == Implementation && request.repair && request.source == source
    && (prior.Some? ==> prior.value == source)
    && !response.outcome.Unavailable? && !response.outcome.Cancelled?
  }

  /** `verifyNativeStage`: accepted exactly when completed without reasons. */
  function Verified(request: Request, response: Response, reasons: seq<Reason>): StageResult {
    StageResult(request, response, response.outcome == Completed && reasons == [], reasons)
  }

  function ResultOf(run: Run, source: Tree, response: Response): StageResult {
    var request := response.request;
    Verified(request, response,
             (if Idle(run, source, request, response) then [NoProgress] else [])
             + (if request.stage == Implementation && response.outcome == ChangesRequested then [Incomplete] else []))
  }

  /** What a review must meet: an executor that authored nothing, and a request citing exactly the accepted
      implementation (or the preserved candidate) and the checks that are valid for this source. */
  function ReviewRefusal(run: Run, source: Tree, response: Response, valid: set<string>): Option<Refusal> {
    var request, implementation := response.request, LastImplementation(run.workflow.results);
    if HasExecutor(run.handoffs, response.native.executor) then Some(IndependentReviewRequired)
    else if run.integration.Some?
            && AnsweredBy(run.integration.value.original.workflow.results, response.native.executor)
    then Some(FreshReviewRequired)
    else if implementation.None? || !implementation.value.accepted
            || (run.integration.None? && implementation.value.response.source != source)
            || request.source != source || |valid| != |run.task.checks|
            || request.prerequisites != (if run.integration.Some? then IntegrationPrerequisites(run)
                                         else ReviewPrerequisites(run, implementation.value))
    then Some(StaleReview)
    else None
  }

  function SubmitRefusal(s: State, run: Run, source: Tree, response: Response): Option<Refusal> {
    var request := response.request;
    if request !in run.workflow.requests || !Open(run.workflow, request) then Some(PendingRequestRequired)
    else if request.evidence != EvidenceOf(run) || !PrerequisitesIntact(run, request, s.environment, s.logs)
    then Some(StalePrerequisites)
    else if response.source != source then Some(ResponseSourceMismatch)
    else if response.rootApplication.Some?
            && (response.rootApplication.value.sourceBefore != request.source
                || !(Elements(response.rootApplication.value.changed) <= Elements(request.scope)))
    then Some(InvalidRootApplication)
    else if response.native.route != request.route then Some(RouteMismatch)
    else if request.stage == Implementation
    then
      if Some(response.native.executor) != request.executor || |run.handoffs| == 0
         || response.native.executor != run.handoffs[|run.handoffs| - 1].executor
      then Some(ExecutorMismatch) else None
    else ReviewRefusal(run, source, response, Valid(s, run, source))
  }

  function SubmitPlan(s: State, id: string, owner: string, response: Response): Plan {
    match Authorize(s, id, owner, true)
    case Denied(why) => Refuse(why)
    case Granted(run, source) =>
      var refusal := SubmitRefusal(s, run, source, response);
      if refusal.Some? then Refuse(refusal.value)
      else
        var result := ResultOf(run, source, response);
        var answered := WithWorkflow(run, Answer(run.workflow, result)).(verdict := None);
        if NoProgress in result.reasons || IsTransport(result) then
          var paused := Noting(answered, PausedFor(response.native.executor)).(status := Paused);
          Plan([Save(paused), Release], Done(paused))
        else Store(answered)
  }

  // ----- Fallback and repair -----

  /** The same request again on another route: the old one is invalidated, the new one appended. */
  function Rerouted(run: Run, previous: Request, native: Handoff, failedApi: Option<ApiEvidence>): Request {
    previous.(route := native.route, attempt := |run.workflow.requests| + 1,
              executor := if previous.stage == Implementation then Some(native.executor) else previous.executor,
              failedApi := if failedApi.Some? then failedApi else previous.failedApi)
  }

  function Reroute(run: Run, previous: Request, native: Handoff, failedApi: Option<ApiEvidence>): Run {
    var next := WithWorkflow(run,
                             Append(Invalidate(run.workflow, previous), Rerouted(run, previous, native, failedApi)));
    if previous.stage == Implementation then next.(route := native.route, handoffs := run.handoffs + [native]) else next
  }

  predicate FallbackEligible(evidence: ApiEvidence, native: Route) {
    var credit := evidence.status == ConfirmedCreditRejection && evidence.cost == Some(0.0);
    if evidence.status == CompletedInvalidOutput then native == REPAIR_ROUTE
    else credit && native in [ORDINARY_ROUTE, Route(Codex, "gpt-5.6-sol", "medium"),
                              Route(ClaudeCode, "cc/claude-sonnet-5-5[1m]", "medium")]
  }

  function FallbackPlan(s: State, id: string, owner: string, request: Request, evidence: ApiEvidence,
                        native: Handoff): Plan {
    match Authorize(s, id, owner, true)
    case Denied(why) => Refuse(why)
    case Granted(run, source) =>
      if request !in run.workflow.requests || request.route.host != OpenRouter || !Open(run.workflow, request)
         || request.source != source || request.evidence != EvidenceOf(run) then Refuse(PendingApiRequestRequired)
      else if !PrerequisitesIntact(run, request, s.environment, s.logs) then Refuse(StalePrerequisites)
      else if evidence.request != request || evidence.task != run.task || evidence.packet != request.stage
              || evidence.model != request.route.model || evidence.cost.None? || evidence.cost.value < 0.0
      then Refuse(ApiEvidenceMismatch)
      else if !FallbackEligible(evidence, native.route) then Refuse(FallbackNotAuthorized)
      else if HasExecutor(run.handoffs, native.executor) then Refuse(FreshExecutorRequired)
      else Store(Noting(Reroute(run, request, native, Some(evidence)), FellBack(request)).(verdict := None))
  }

  function RepairPlan(s: State, id: string, owner: string, native: Handoff): Plan {
    match Authorize(s, id, owner, true)
    case Denied(why) => Refuse(why)
    case Granted(run, source) =>
      var pending := Pending(run.workflow);
      if pending.None? || !pending.value.repair || pending.value.stage != Implementation
         || pending.value.source != source || pending.value.evidence != EvidenceOf(run)
            then Refuse(CapabilityRepairRequired)
      else if !PrerequisitesIntact(run, pending.value, s.environment, s.logs) then Refuse(StalePrerequisites)
      else if native.route != REPAIR_ROUTE || HasExecutor(run.handoffs, native.executor)
              then Refuse(CapableNativeRequired)
      else Store(Noting(Reroute(run, pending.value, native, None), Escalated(pending.value)).(verdict := None))
  }

  // ----- Verifying and finishing -----

  predicate ResultsConsistent(results: seq<StageResult>) {
    forall i | 0 <= i < |results| :: results[i].response.request == results[i].request
                                  && (results[i].accepted
                                      ==> results[i].response.outcome == Completed && results[i].reasons == [])
  }

  /** `validateCandidateRun`: verified, active, ready, independently reviewed, every check valid as declared. */
  predicate CandidateValid(run: Run, source: Tree, environment: string, logs: map<Log, string>) {
    && run.integration.None? && run.verdict == Some(true) && run.status == Active && DirectReady(run, source)
    && ResultsConsistent(run.workflow.results)
    && !HasExecutor(run.handoffs, run.workflow.results[|run.workflow.results| - 1].response.native.executor)
    && forall i | 0 <= i < |run.task.checks| ::
         var spec := run.task.checks[i];
         && CheckValid(run, spec.id, source, environment, logs)
         && LatestCheck(run.checks, spec.id).value.spec == spec
  }

  /** `validateIntegrationEvidence`: the preserved candidate still validates against its own source and logs. */
  predicate EvidenceValid(s: State, run: Run) {
    run.integration.Some? ==>
      var e := run.integration.value;
      && CandidateValid(e.original, e.candidateSource, s.environment, e.checkLogs)
      && |e.original.workflow.results| <= |run.workflow.results|
      && ResultsConsistent(run.workflow.results[|e.original.workflow.results|..])
  }

  predicate Verdict(s: State, run: Run, source: Tree) {
    && (forall i | 0 <= i < |run.task.checks| :: run.task.checks[i].id in Valid(s, run, source))
    && WorkflowReady(run, source)
  }

  function VerifyPlan(s: State, id: string, owner: string): Plan {
    match Authorize(s, id, owner, true)
    case Denied(why) => Refuse(why)
    case Granted(run, source) =>
      if !EvidenceValid(s, run) then Refuse(EvidenceInvalid)
      else Store(run.(verdict := Some(Verdict(s, run, source))))
  }

  /** Paths a commit changes against its first parent. */
  function Changed(before: Tree, after: Tree): set<Path> {
    set path | path in before.Keys + after.Keys && Get(before, path) != Get(after, path)
  }

  function FinishRefusal(s: State, run: Run, commit: Revision): Option<Refusal> {
    var scope := Elements(run.task.scope);
    if s.head != commit || commit.parents != [run.baseCommit] then Some(ExactCommitRequired)
    else if Changed(run.baseCommit.tree, commit.tree) == {} || !(Changed(run.baseCommit.tree, commit.tree) <= scope)
    then Some(CommitScopeMismatch)
    else if exists path | path in scope :: Get(s.files, path) != Get(commit.tree, path) then Some(UncommittedScope)
    else if Outside(s.files, scope) != run.outside then Some(OutOfScopeChange)
    else if !EvidenceValid(s, run) then Some(EvidenceInvalid)
    else None
  }

  function FinishPlan(s: State, id: string, owner: string, commit: Revision): Plan {
    if s.kind != Main then Refuse(MainOnly)
    else if id !in s.records then Refuse(RecordMissing)
    else
      var run := s.records[id];
      var owned, refusal := Own(s, run, owner, true), FinishRefusal(s, run, commit);
      if owned.Some? then Refuse(owned.value)
      else if refusal.Some? then Refuse(refusal.value)
      else if !Verdict(s, run, s.files) then Plan([Save(run.(verdict := Some(false)))], Refused(VerificationFailed))
      else
        var complete := run.(verdict := Some(true), commit := Some(commit), status := Complete);
        Plan([Save(complete), Release], Done(complete))
  }

  // ----- Pausing, resuming, recovery -----

  function PausePlan(s: State, id: string, owner: string, reason: string): Plan {
    if id !in s.records then Refuse(RecordMissing)
    else
      var run := s.records[id];
      var owned := Own(s, run, owner, false);
      if owned.Some? then Refuse(owned.value)
      else
        var paused := Noting(run, PausedFor(reason)).(status := Paused);
        Plan([Save(paused), Release], Done(paused))
  }

  /** The loop that invalidates every open request among the first `count`. */
  function InvalidateOpen(w: Workflow, count: nat): Workflow
    requires count <= |w.requests|
  {
    if count == 0 then w
    else
      var before := InvalidateOpen(w, count - 1);
      if Open(before, w.requests[count - 1]) then Invalidate(before, w.requests[count - 1]) else before
  }

  function Reactivated(run: Run): Run {
    WithWorkflow(run, InvalidateOpen(run.workflow, |run.workflow.requests|))
      .(status := if run.integration.Some? then Active else AwaitingNative)
  }

  function ResumePlan(s: State, id: string, owner: string): Plan {
    if id !in s.records then Refuse(RecordMissing)
    else
      var run := s.records[id];
      var reserved, moved := ResumeRefusal(s, run), SourceRefusal(s, run);
      if run.status != Paused || run.task.owner != owner then Refuse(PausedOwnerRequired)
      else if reserved.Some? then Refuse(reserved.value)
      else if moved.Some? then Refuse(moved.value)
      else if s.active.Some? then Refuse(WriterAlreadyClaimed)
      else
        var resumed := Noting(Reactivated(run), Resumed);
        Plan([Save(resumed), Claim(id)], Done(resumed))
  }

  /** Recovery of the operation lock has succeeded; the claim and the record are brought back together. */
  function ReconcilePlan(s: State, id: string, owner: string, reason: string): Plan {
    if id !in s.records then Refuse(RecordMissing)
    else if s.records[id].task.owner != owner then Refuse(WriterMismatch)
    else if s.active.Some? && s.active != Some(id) then Refuse(WriterAlreadyClaimed)
    else
      var run := s.records[id];
      if run.status == Paused || run.status == Complete || run.status == Superseded then
        var noted := Noting(run, Reconciled(reason));
        Plan((if s.active == Some(id) then [Release] else []) + [Save(noted)], Done(noted))
      else
        var reserved, moved := ResumeRefusal(s, run), SourceRefusal(s, run);
        if reserved.Some? then Refuse(reserved.value)
        else if moved.Some? then Refuse(moved.value)
        else
          var restored := Noting(Reactivated(run), Reconciled(reason));
          Plan((if s.active.None? then [Claim(id)] else []) + [Save(restored)], Done(restored))
  }

  predicate IsAncestor(ancestor: Revision, revision: Revision) {
    ancestor == revision || exists i | 0 <= i < |revision.parents| :: IsAncestor(ancestor, revision.parents[i])
  }

  function SupersedePlan(s: State, id: string, owner: string, successor: string): Plan {
    if s.kind != Main then Refuse(MainOnly)
    else if id !in s.records then Refuse(RecordMissing)
    else
      var run := s.records[id];
      if run.task.owner != owner then Refuse(WriterMismatch)
      else if run.status != Paused then Refuse(PausedRunRequired)
      else if s.active.Some? then Refuse(WriterAlreadyClaimed)
      else if successor !in s.records then Refuse(RecordMissing)
      else
        var next := s.records[successor];
        if next.status != Complete || next.verdict != Some(true) || next.commit.None?
           then Refuse(CompleteSuccessorRequired)
        else if run.baseCommit == next.commit.value || !IsAncestor(run.baseCommit, next.commit.value)
        then Refuse(SuccessorDescendantRequired)
        else Store(Noting(run, SupersededBy(successor)).(status := Superseded))
  }

  // ----- Integrating -----

  datatype IntegrationInput = IntegrationInput(id: string, owner: string, expected: Run, revalidate: Option<Pin>)

  /** The private candidate as found now: canonical custody, its record of the run, its tree and logs, and
      whether it still has an operation. */
  datatype Checkout = Checkout(custody: Custody, record: Option<Run>, source: Tree, logs: map<Log, string>, busy: bool)

  /** `findIntegratedRun`: the first record, in directory order, of a completed integration with this commit. */
  function FindIntegrated(names: seq<string>, records: map<string, Run>, commit: Revision): Option<Run> {
    if names == [] then None
    else if names[0] in records && IntegratedBy(records[names[0]], commit) then Some(records[names[0]])
    else FindIntegrated(names[1..], records, commit)
  }

  predicate IntegratedBy(run: Run, commit: Revision) {
    && run.commit == Some(commit) && run.integration.Some? && run.status == Complete && run.verdict == Some(true)
    && WorkflowReady(run, run.integration.value.sourceAfter)
  }

  /** The commits after the base, oldest first; a merge among them accounts for no paths. */
  function Since(names: seq<string>, records: map<string, Run>, base: Revision, head: Revision): seq<Commit>
    decreases head
  {
    if head == base || |head.parents| == 0 then []
    else
      var sibling := FindIntegrated(names, records, head);
      var paths := if |head.parents| == 1 then Changed(head.parents[0].tree, head.tree) else {};
      Since(names, records, base, head.parents[0])
      + [Commit(paths, if sibling.Some? then Some(Elements(sibling.value.task.scope)) else None)]
  }

  function MergeCandidate(c: Checkout, original: Run): Integration.Candidate {
    Integration.Candidate(original.task.scope, c.custody.readPaths, c.custody.declaredReads.Some?,
                          path => Lineage.RequiredInput(path, original.task.checks), c.source)
  }

  function Prepared(s: State, input: IntegrationInput, c: Checkout, original: Run, after: Tree): Run {
    original.(baseCommit := s.head, outside := Outside(s.files, Elements(original.task.scope)), checks := [],
              events := [CandidateIntegration(input.expected)], verdict := None,
              integration := Some(Integrated(original, input.expected, s.files, after, c.source, false, c.custody,
                                             c.logs, input.revalidate)))
  }

  function MergeRefusal(error: Error): Refusal {
    match error
    case InputChanged => Refusal.InputChanged
    case UnacceptedDrift => Refusal.UnacceptedDrift
    case NoChange => Refusal.NoChange
  }

  predicate LogsPresent(run: Run, logs: map<Log, string>) {
    forall i | 0 <= i < |run.checks| ::
      LogOf(run.task.id, run.checks[i], Stdout) in logs && LogOf(run.task.id, run.checks[i], Stderr) in logs
  }

  datatype Preparation = Ready(run: Run) | Unready(why: Refusal)

  function PrepareIntegration(s: State, input: IntegrationInput, c: Checkout): (preparation: Preparation)
    ensures preparation.Ready? ==> preparation.run.integration.Some?
  {
    if s.files != s.head.tree then Unready(DirtyCanonical)
    else if !c.custody.cleanBase then Unready(CustodyInvalid)
    else if Outside(c.source, Elements(c.custody.scope)) != Outside(c.custody.base, Elements(c.custody.scope))
    then Unready(OutOfScopeChange)
    else if c.record.None? then Unready(RecordMissing)
    else
      var original := c.record.value;
      if !IntegrationFree(Reservations.Active(s.pools, s.busy), Elements(original.task.scope), c.custody.resources)
      then Unready(IntegrationActiveDependency)
      else if original.task.owner != input.owner then Unready(OwnerMismatch)
      else if original != input.expected || original.task.scope != c.custody.scope || original.task.id != input.id
              || original.baseCommit != c.custody.baseCommit || original.task.readPaths != c.custody.declaredReads
      then Unready(CandidateIdentity)
      else if c.busy then Unready(CandidateBusy)
      else if !CandidateValid(original, c.source, s.environment, c.logs) then Unready(CandidateNotReviewed)
      else if input.revalidate.Some? && input.revalidate.value != Pin(s.head, s.files) then Unready(RevalidationStale)
      else if !IsAncestor(c.custody.baseCommit, s.head) then Unready(Refusal.UnacceptedDrift)
      else
        var canonical := Canonical(s.files, Since(s.names, s.records, c.custody.baseCommit, s.head));
        var merged := Prepare(c.custody.base, canonical, MergeCandidate(c, original), input.revalidate.Some?);
        if merged.Failure? then Unready(MergeRefusal(merged.error))
        else if !LogsPresent(original, c.logs) then Unready(LogMissing)
        else Ready(Prepared(s, input, c, original, merged.value))
  }

  /** The guards of the apply loop, taken afresh on every attempt. */
  function ApplyRefusal(s: State, run: Run, input: IntegrationInput, c: Checkout): Option<Refusal>
    requires run.integration.Some?
  {
    var e := run.integration.value;
    var scope := Elements(run.task.scope);
    if !IntegrationFree(Reservations.Active(s.pools, s.busy), scope, c.custody.resources)
       then Some(IntegrationActiveDependency)
    else if input.expected != e.candidateDigest || run.task.owner != input.owner || input.revalidate != e.revalidation
    then Some(IntegrationIdentity)
    else if s.head != run.baseCommit then Some(BaseMoved)
    else if c.custody != e.custody || c.record != Some(e.candidateDigest) then Some(CandidateIdentity)
    else if Outside(s.files, scope) != run.outside then Some(OutOfScopeChange)
    else if exists path | path in scope ::
            Get(s.files, path) != Get(e.sourceBefore, path) && Get(s.files, path) != Get(e.sourceAfter, path)
    then Some(IntegrationInputChanged)
    else if c.source != e.candidateSource then Some(CandidateSourceChanged)
    else None
  }

  function Replacement(e: Integrated, path: Path): Write {
    Replace(path, if path in e.sourceAfter then Get(e.candidateSource, path) else None)
  }

  function Replacements(e: Integrated, scope: seq<Path>): (writes: seq<Write>)
    ensures |writes| == |scope|
  {
    if scope == [] then []
    else Replacements(e, scope[..|scope| - 1]) + [Replacement(e, scope[|scope| - 1])]
  }

  function ApplyPlan(s: State, run: Run, input: IntegrationInput, c: Checkout, before: seq<Write>): Plan
    requires run.integration.Some?
  {
    var refusal, e := ApplyRefusal(s, run, input, c), run.integration.value;
    if refusal.Some? then Plan(before, Refused(refusal.value))
    else
      var applied := before + Replacements(e, run.task.scope);
      if Perform(s, applied).files != e.sourceAfter then Plan(applied, Refused(SourceNotReady))
      else
        var prepared := run.(integration := Some(e.(prepared := true)));
        Plan(applied + [Save(prepared)], Done(prepared))
  }

  /** A new run is saved, an unclaimed one claimed. */
  function TakenUp(s: State, run: Run): seq<Write> {
    (if run.task.id in s.records then [] else [Save(run)]) + if s.active.None? then [Claim(run.task.id)] else []
  }

  function AdoptPlan(s: State, run: Run, input: IntegrationInput, c: Checkout): Plan
    requires run.integration.Some?
  {
    if run.task.owner != input.owner then Refuse(OwnerMismatch)
    else if run.status != Active then Refuse(RunNotActive)
    else ApplyPlan(s, run, input, c, TakenUp(s, run))
  }

  function IntegratePlan(s: State, input: IntegrationInput, c: Checkout): Plan {
    if s.kind != Main then Refuse(MainOnly)
    else if input.id in s.records && s.records[input.id].integration.None? then Refuse(RunAlreadyExists)
    else if s.active.Some? && s.active != Some(input.id) then Refuse(WriterAlreadyClaimed)
    else if input.id in s.records then AdoptPlan(s, s.records[input.id], input, c)
    else
      match PrepareIntegration(s, input, c)
      case Unready(why) => Refuse(why)
      case Ready(run) => AdoptPlan(s, run, input, c)
  }
}
