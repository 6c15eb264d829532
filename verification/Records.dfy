/** The durable records of a delivery: tasks, stage requests and results, checks and runs.

    A digest is modelled by the value it digests, so equal digests mean equal values. A request's id is
    the digest of its body: the request itself stands for its id. A commit stands for its content. */
module Records {
  import opened Basics
  import opened Integration

  datatype Host = Codex | ClaudeCode | OpenRouter
  datatype Route = Route(host: Host, model: string, effort: string)
  datatype Handoff = Handoff(route: Route, executor: string)

  /** `script` is the workspace path a `node` check runs. */
  datatype CheckSpec = CheckSpec(id: string, tool: string, script: Option<Path>, command: seq<string>)

  datatype Task = Task(
    id: string,
    owner: string,
    host: Host,
    demanding: bool,
    requested: Option<Route>,
    reviewer: Option<Route>,
    scope: seq<Path>,
    readPaths: Option<seq<Path>>,
    checks: seq<CheckSpec>,
    adopted: set<Path>)

  datatype Stream = Stdout | Stderr
  datatype Log = Log(run: string, check: string, attempt: nat, stream: Stream)

  /** `stdout` and `stderr` are the digests of the two logs; no source after means the source was invalid. */
  datatype Check = Check(
    spec: CheckSpec,
    attempt: nat,
    sourceBefore: Tree,
    sourceAfter: Option<Tree>,
    environment: string,
    stdout: string,
    stderr: string,
    passed: bool)

  datatype Stage = Implementation | Review

  datatype Feedback =
    | Rejected(result: StageResult)
    | CheckFailed(check: Check)
    | SourceChanged
    | Revalidate(ownerPinned: bool, changed: set<Path>)

  datatype Digest = OfResult(result: StageResult) | OfCheck(check: Check) | OfMissingCheck | OfRun(run: Run)

  datatype StageEvidence = StageEvidence(results: seq<StageResult>, checks: seq<Digest>, starts: seq<Event>)

  datatype Request = Request(
    taskId: string,
    baseCommit: Revision,
    stage: Stage,
    attempt: nat,
    source: Tree,
    evidence: StageEvidence,
    repair: bool,
    route: Route,
    executor: Option<string>,
    prerequisites: seq<Digest>,
    scope: seq<Path>,
    feedback: seq<Feedback>,
    failedApi: Option<ApiEvidence>)

  datatype ApiStatus = ConfirmedCreditRejection | CompletedInvalidOutput | OtherStatus
  datatype ApiEvidence = ApiEvidence(
    request: Request, task: Task, packet: Stage, model: string, status: ApiStatus, cost: Option<real>)

  datatype StageOutcome = Completed | ChangesRequested | Unavailable | Cancelled
  datatype RootApplication = RootApplication(sourceBefore: Tree, changed: seq<Path>)
  datatype Response = Response(
    request: Request, source: Tree, native: Handoff, outcome: StageOutcome, rootApplication: Option<RootApplication>)

  datatype Reason = NoProgress | Incomplete
  datatype StageResult = StageResult(request: Request, response: Response, accepted: bool, reasons: seq<Reason>)

  datatype Workflow = Workflow(requests: seq<Request>, results: seq<StageResult>, invalidated: seq<Request>)

  datatype Event =
    | CheckStart(id: string, attempt: nat)
    | PausedFor(reason: string)
    | Resumed
    | Reconciled(reason: string)
    | FellBack(request: Request)
    | Escalated(request: Request)
    | CandidateIntegration(candidate: Run)
    | SupersededBy(successor: string)

  datatype Status = AwaitingNative | Active | Paused | Complete | Superseded

  datatype Revision = Revision(message: string, parents: seq<Revision>, tree: Tree)

  datatype Run = Run(
    task: Task,
    route: Route,
    baseCommit: Revision,
    outside: Tree,
    status: Status,
    handoffs: seq<Handoff>,
    checks: seq<Check>,
    events: seq<Event>,
    workflow: Workflow,
    verdict: Option<bool>,
    commit: Option<Revision>,
    integration: Option<Integrated>)

  datatype Pin = Pin(commit: Revision, source: Tree)

  /** Canonical custody of a candidate checkout; undeclared read paths pin every file of the base. */
  datatype Custody = Custody(
    base: Tree,
    baseCommit: Revision,
    scope: seq<Path>,
    readPaths: set<Path>,
    declaredReads: Option<seq<Path>>,
    cleanBase: bool,
    resources: set<string>)

  datatype Integrated = Integrated(
    original: Run,
    candidateDigest: Run,
    sourceBefore: Tree,
    sourceAfter: Tree,
    candidateSource: Tree,
    prepared: bool,
    custody: Custody,
    checkLogs: map<Log, string>,
    revalidation: Option<Pin>)

  function LogOf(run: string, check: Check, stream: Stream): Log {
    Log(run, check.spec.id, check.attempt, stream)
  }
}
