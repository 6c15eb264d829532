/** The outcome loop of a candidate: advance, invoke the executor, submit or fall back, until it ends. */
module Runner {
  import opened Basics
  import opened Integration
  import opened Records
  import opened Workflows
  import opened WorkflowLaws
  import opened Lifecycle
  import opened LifecycleInvariant
  import opened LifecycleSteps
  import opened LifecycleSaves
  import opened LifecycleClaims
  import opened LifecycleTheorems
  import opened Advancing

  datatype Mode = Advance | Invoking(request: Request) | Ended(success: bool)

  /** `calls` counts executor calls, `mutations` the checks whose command changed the source or the head. */
  datatype Driver = Driver(s: State, mode: Mode, repairs: nat, calls: nat, mutations: nat)

  /** What the executor does: reply, with the tree its changes leave; fail on the API; or throw. */
  datatype Answer =
    | Reply(response: Response, files: Tree)
    | ApiFails(evidence: ApiEvidence, handoff: Handoff)
    | Throws

  function End(d: Driver, s: State, success: bool): Driver {
    d.(s := s, mode := Ended(success))
  }

  /** A repair beyond the limit ends the loop; one on another route is first moved to the capable route. */
  function TakeUpRepair(d: Driver, s: State, id: string, owner: string, limit: nat, request: Request,
                        handoff: Handoff): Driver {
    if d.repairs + 1 > limit then End(d, s, false)
    else if request.route == REPAIR_ROUTE then d.(s := s, mode := Invoking(request), repairs := d.repairs + 1)
    else
      var repaired := RepairPlan(s, id, owner, handoff);
      var s2 := Resulting(s, repaired);
      var again := NextPlan(s2, id, owner);
      if !repaired.outcome.Done? || !again.outcome.Acted? || !again.outcome.action.Native? then End(d, s2, false)
      else d.(s := Resulting(s2, again), mode := Invoking(again.outcome.action.request), repairs := d.repairs + 1)
  }

  /** The command of a check may change the source; the harness only records that it did. */
  function RunOne(d: Driver, s: State, id: string, owner: string, checkId: string, command: Command): Driver {
    var checked := CheckPlan(s, id, owner, checkId, command);
    if !checked.outcome.Done? then End(d, Resulting(s, checked), false)
    else d.(s := Resulting(s, checked), mutations := d.mutations + if LeavesSource(s, command) then 0 else 1)
  }

  /** A run that is ready is verified, and succeeds when the verdict passes. */
  function Conclusion(d: Driver, s: State, id: string, owner: string): Driver {
    var verified := VerifyPlan(s, id, owner);
    End(d, Resulting(s, verified), verified.outcome.Done? && verified.outcome.run.verdict == Some(true))
  }

  /** What follows from the action of a `next`. */
  function Follow(d: Driver, plan: Plan, id: string, owner: string, limit: nat, command: Command,
                  handoff: Handoff): Driver {
    var s := Resulting(d.s, plan);
    match plan.outcome
    case Acted(RunCheck(checkId)) => RunOne(d, s, id, owner, checkId, command)
    case Acted(Native(request)) =>
      if request.repair then TakeUpRepair(d, s, id, owner, limit, request, handoff)
      else d.(s := s, mode := Invoking(request))
    case Acted(ReadyToCommit(_)) => Conclusion(d, s, id, owner)
    case _ => End(d, s, false)
  }

  function AdvanceOnce(d: Driver, id: string, owner: string, limit: nat, command: Command, handoff: Handoff): Driver {
    Follow(d, NextPlan(d.s, id, owner), id, owner, limit, command, handoff)
  }

  /** A stored run that is still active is advanced again; anything else ends the loop. */
  function Conclude(d: Driver, s: State, plan: Plan): Driver {
    if plan.outcome.Done? && plan.outcome.run.status == Active then d.(s := Resulting(s, plan), mode := Advance)
    else End(d, Resulting(s, plan), false)
  }

  /** Replies the loop refuses: for another request, cancelled, or with changes where none are allowed. */
  predicate ReplyRefused(d: Driver, request: Request, response: Response, files: Tree) {
    || response.request != request || response.outcome == Unavailable || response.outcome == Cancelled
    || ((request.stage != Implementation || response.outcome != Completed) && files != d.s.files)
  }

  /** The call is counted whatever comes of it. */
  function Respond(d: Driver, id: string, owner: string, answer: Answer): Driver
    requires d.mode.Invoking?
  {
    var request, counted := d.mode.request, d.(calls := d.calls + 1);
    match answer
    case Throws => End(counted, d.s, false)
    case ApiFails(evidence, handoff) => Conclude(counted, d.s, FallbackPlan(d.s, id, owner, request, evidence, handoff))
    case Reply(response, files) =>
      if ReplyRefused(d, request, response, files) then End(counted, d.s, false)
      else
        var s := d.s.(files := files);
        Conclude(counted, s, SubmitPlan(s, id, owner, response.(source := files)))
  }

  // ----- The bound -----

  function CallsOf(request: Request): nat {
    (if request.route.host == OpenRouter then 2 else 1) + if request.stage == Implementation then 2 else 0
  }

  /** Executor calls still possible once this request is next. */
  function Cost(request: Request, left: nat): nat {
    if request.repair then 3 * left else CallsOf(request) + 3 * left
  }

  /** Executor calls still possible once this is the action. */
  function ActionCost(outcome: Outcome, left: nat): nat {
    match outcome
    case Acted(Native(request)) => Cost(request, left)
    case Acted(RunCheck(_)) => 2 + 3 * left
    case _ => 0
  }

  function Potential(d: Driver, id: string, owner: string, limit: nat): nat
    requires d.repairs <= limit
  {
    match d.mode
    case Advance => ActionCost(NextPlan(d.s, id, owner).outcome, limit - d.repairs)
    case Invoking(request) => CallsOf(request) + 3 * (limit - d.repairs)
    case Ended(_) => 0
  }

  /** The candidate's own record, authored directly. */
  ghost predicate Runnable(s: State, id: string) {
    && SoundRecords(s) && id in s.records && s.records[id].task.id == id && s.records[id].integration.None?
  }

  /** The request is what `next` returns, and returns again. */
  ghost predicate Current(s: State, id: string, request: Request)
    requires id in s.records
  {
    var run := s.records[id];
    && Bookkept(run.workflow) && DistinctChecks(run.task)
    && Pending(run.workflow) == Some(request)
    && PendingIsCurrent(run, request, s.files, Valid(s, run, s.files))
  }

  ghost predicate Good(d: Driver, id: string, limit: nat) {
    && d.repairs <= limit && Runnable(d.s, id)
    && (d.mode.Invoking? ==>
          Current(d.s, id, d.mode.request) && (d.mode.request.repair ==> d.mode.request.route.host != OpenRouter))
  }

  // ----- Sound records -----

  lemma RecordReady(s: State, id: string)
    requires Runnable(s, id)
    ensures Sound(s.records[id]) && Bookkept(s.records[id].workflow) && DistinctChecks(s.records[id].task)
  {
    assert Soundness()(RecordAt(s, id));
    SoundTask(s.records[id]);
  }

  /** An authoring operation keeps the record ready. */
  lemma AuthoringStaysReady(s: State, id: string, op: Operation)
    requires Runnable(s, id) && Authors(op)
    ensures Runnable(Resulting(s, PlanOf(s, op)), id)
  {
    PlanSavesSound(s, op);
    PrefixKeepsRecords(s, PlanOf(s, op).writes);
    KeyedRecord(Resulting(s, PlanOf(s, op)), id);
  }

  lemma KeyedRecord(s: State, id: string)
    requires SoundRecords(s) && id in s.records
    ensures s.records[id].task.id == id
  {
  }

  // ----- What each action leads to -----

  /** The next action of a run with nothing pending and a settled last result: review or repair, never a first
      implementation. */
  lemma SettledNext(run: Run, source: Tree, valid: set<string>)
    requires NothingPending(run.workflow) && Bookkept(run.workflow) && LastSettled(run.workflow.results).Some?
    requires LastSettled(run.workflow.results).value.accepted ==>
               var implementation := LastImplementation(run.workflow.results);
               implementation.Some? && implementation.value.accepted && implementation.value.response.source == source
    ensures var decided := NextDirect(run, source, valid);
            && decided.Decided?
            && (decided.action.Native? ==> decided.action.request.repair || decided.action.request.stage == Review)
            && (!LastSettled(run.workflow.results).value.accepted
                ==> decided.action.Native? && decided.action.request.repair)
  {
    PendingIsTheNewest(run.workflow);
  }

  lemma LastWhereSnoc<T>(items: seq<T>, item: T, p: T -> bool)
    ensures LastWhere(items + [item], p) == if p(item) then Some(item) else LastWhere(items, p)
  {
    assert (items + [item])[..|items|] == items;
  }

  lemma AnsweredLasts(results: seq<StageResult>, result: StageResult)
    requires !IsTransport(result)
    ensures LastSettled(results + [result]) == Some(result)
    ensures LastImplementation(results + [result]) ==
            if result.request.stage == Implementation then Some(result) else LastImplementation(results)
  {
    LastWhereSnoc(results, result, (r: StageResult) => !IsTransport(r));
    LastWhereSnoc(results, result, (r: StageResult) => IsImplementation(r));
  }

  // ----- next -----

  lemma CurrentFrame(run: Run, now: Run, request: Request, source: Tree, valid: set<string>)
    requires OnlyAsks(run, now) && PendingIsCurrent(run, request, source, valid)
    ensures PendingIsCurrent(now, request, source, valid)
  {
    AskingKeepsEvidence(run, now);
  }

  /** A decision that leaves the run as it is returns the pending request. */
  lemma UnchangedIsPending(run: Run, source: Tree, valid: set<string>)
    requires NextDirect(run, source, valid).action.Native? && NextDirect(run, source, valid).run == run
    ensures PendingIsCurrent(run, NextDirect(run, source, valid).action.request, source, valid)
  {
  }

  /** A request just decided on is current in the run it was decided for. */
  lemma DecidedIsCurrent(run: Run, source: Tree, valid: set<string>)
    requires Bookkept(run.workflow) && Declared(run, valid)
    requires NextDirect(run, source, valid).action.Native?
    ensures var decided := NextDirect(run, source, valid);
            && OnlyAsks(run, decided.run) && Pending(decided.run.workflow) == Some(decided.action.request)
            && PendingIsCurrent(decided.run, decided.action.request, source, valid)
  {
    var decided := NextDirect(run, source, valid);
    DirectShape(run, source, valid);
    ShapeKeepsBooks(run, source, decided);
    if decided.run == run {
      UnchangedIsPending(run, source, valid);
    } else {
      AskedIsCurrent(run, source, valid);
      CurrentFrame(run, decided.run, decided.action.request, source, valid);
    }
  }

  lemma NextOfCurrent(run: Run, source: Tree, valid: set<string>, request: Request)
    requires run.integration.None? && Pending(run.workflow) == Some(request)
             && PendingIsCurrent(run, request, source, valid)
    ensures NextAction(run, source, valid) == Decided(run, Native(request))
  {
  }

  lemma PlanOfDecision(s: State, id: string, owner: string, run: Run, decided: Decision)
    requires id in s.records && s.records[id] == run && decided.Decided?
    requires NextAction(run, s.files, Valid(s, run, s.files)) == decided
    ensures var plan := NextPlan(s, id, owner);
            plan.outcome.Acted? ==> plan.outcome.action == Stopped(OperatorPaused)
                                    || plan == Plan([Save(decided.run)], Acted(decided.action))
  {
  }

  /** What `next` on a current request can return is that request. */
  lemma CurrentIsNext(s: State, id: string, owner: string, request: Request)
    requires Runnable(s, id) && Current(s, id, request)
    ensures var plan := NextPlan(s, id, owner);
            plan.outcome.Acted? ==> plan.outcome.action == Stopped(OperatorPaused)
                                    || plan == Plan([Save(s.records[id])], Acted(Native(request)))
  {
    var run := s.records[id];
    NextOfCurrent(run, s.files, Valid(s, run, s.files), request);
    PlanOfDecision(s, id, owner, run, Decided(run, Native(request)));
  }

  lemma SavingAgainChangesNothing(s: State, id: string)
    requires id in s.records && s.records[id].task.id == id
    ensures Perform(s, [Save(s.records[id])]) == s
  {
    PerformOne(s, Save(s.records[id]));
  }

  lemma NativeIsCurrent(s: State, id: string, owner: string, request: Request)
    requires Runnable(s, id) && NextPlan(s, id, owner).outcome == Acted(Native(request))
    ensures var u := Resulting(s, NextPlan(s, id, owner));
            Runnable(u, id) && Current(u, id, request) && u.files == s.files
  {
    RecordReady(s, id);
    AuthoringStaysReady(s, id, NextStep(id, owner));
    NextGrants(s, id, owner, request);
    var run := s.records[id];
    var valid := Valid(s, run, s.files);
    ValidIsDeclared(s, run);
    DecidedIsCurrent(run, s.files, valid);
    var decided := NextDirect(run, s.files, valid);
    PerformOne(s, Save(decided.run));
    RecordReady(Put(s, Save(decided.run)), id);
    ValidFrame(s, Put(s, Save(decided.run)), run, decided.run);
  }

  // ----- Rerouting -----

  lemma EventKeepsEvidence(run: Run, event: Event)
    requires !event.CheckStart?
    ensures EvidenceOf(Noting(run, event)) == EvidenceOf(run) && CheckDigests(Noting(run, event)) == CheckDigests(run)
  {
    assert Noting(run, event).events[..|run.events|] == run.events;
    assert CheckDigests(Noting(run, event)) == CheckDigests(run);
  }

  lemma EventKeepsValid(s: State, run: Run, now: Run, event: Event)
    requires !event.CheckStart? && now.task == run.task && now.checks == run.checks
             && now.events == run.events + [event]
    ensures Valid(s, now, s.files) == Valid(s, run, s.files)
  {
    forall i | 0 <= i < |run.task.checks|
      ensures CheckValid(now, run.task.checks[i].id, s.files, s.environment, s.logs)
          <==> CheckValid(run, run.task.checks[i].id, s.files, s.environment, s.logs)
    {
      var id := run.task.checks[i].id;
      LastWhereFrame(run.events, event, (e: Event) => e.CheckStart? && e.id == id);
    }
  }

  function RoutedTo(run: Run, request: Request, native: Handoff, failedApi: Option<ApiEvidence>, event: Event): Run {
    Noting(Reroute(run, request, native, failedApi), event).(verdict := None)
  }

  /** A request that copies source, evidence and prerequisites of a current one is current when those hold. */
  lemma CopyIsCurrent(run: Run, now: Run, request: Request, next: Request, source: Tree, valid: set<string>)
    requires PendingIsCurrent(run, request, source, valid) && now.task == run.task
    requires now.workflow.results == run.workflow.results && CheckDigests(now) == CheckDigests(run)
             && EvidenceOf(now) == EvidenceOf(run)
    requires next.source == request.source && next.evidence == request.evidence && next.stage == request.stage
    requires next.prerequisites == request.prerequisites
    ensures PendingIsCurrent(now, next, source, valid)
  {
  }

  lemma ReroutedIsCurrent(s: State, run: Run, request: Request, native: Handoff, failedApi: Option<ApiEvidence>,
                          event: Event)
    requires Bookkept(run.workflow) && request in run.workflow.requests && Open(run.workflow, request)
    requires PendingIsCurrent(run, request, s.files, Valid(s, run, s.files)) && !event.CheckStart?
    ensures var now := RoutedTo(run, request, native, failedApi, event);
            var next := Rerouted(run, request, native, failedApi);
            && Pending(now.workflow) == Some(next) && PendingIsCurrent(now, next, s.files, Valid(s, now, s.files))
  {
    RerouteKeepsBooks(run, request, native, failedApi);
    var now := RoutedTo(run, request, native, failedApi, event);
    EventKeepsValid(s, run, now, event);
    EventKeepsEvidence(run, event);
    assert CheckDigests(now) == CheckDigests(run);
    CopyIsCurrent(run, now, request, Rerouted(run, request, native, failedApi), s.files, Valid(s, now, s.files));
  }

  lemma RoutedStateIsCurrent(s: State, id: string, run: Run, request: Request, native: Handoff,
                             failedApi: Option<ApiEvidence>, event: Event)
    requires Runnable(s, id) && s.records[id] == run && Current(s, id, request) && !event.CheckStart?
    requires Runnable(Perform(s, [Save(RoutedTo(run, request, native, failedApi, event))]), id)
    ensures var u := Perform(s, [Save(RoutedTo(run, request, native, failedApi, event))]);
            u.files == s.files && Current(u, id, Rerouted(run, request, native, failedApi))
  {
    var now := RoutedTo(run, request, native, failedApi, event);
    PerformOne(s, Save(now));
    RecordReady(Put(s, Save(now)), id);
    ReroutedIsCurrent(s, run, request, native, failedApi, event);
  }

  /** After a successful repair or fallback, the rerouted request is the current one. */
  lemma RepairIsCurrent(s: State, id: string, owner: string, request: Request, native: Handoff)
    requires Runnable(s, id) && Current(s, id, request) && RepairPlan(s, id, owner, native).outcome.Done?
    ensures var u := Resulting(s, RepairPlan(s, id, owner, native));
            && Runnable(u, id) && u.files == s.files && native.route == REPAIR_ROUTE
            && request.repair && request.stage == Implementation
            && Current(u, id, Rerouted(s.records[id], request, native, None))
  {
    AuthoringStaysReady(s, id, EscalateTo(id, owner, native));
    var run := s.records[id];
    assert RepairPlan(s, id, owner, native).writes == [Save(RoutedTo(run, request, native, None, Escalated(request)))];
    RoutedStateIsCurrent(s, id, run, request, native, None, Escalated(request));
  }

  lemma FallbackMeans(s: State, id: string, owner: string, request: Request, evidence: ApiEvidence, native: Handoff)
    requires FallbackPlan(s, id, owner, request, evidence, native).outcome.Done?
    ensures id in s.records && request.route.host == OpenRouter && native.route.host != OpenRouter
    ensures FallbackPlan(s, id, owner, request, evidence, native).writes
            == [Save(RoutedTo(s.records[id], request, native, Some(evidence), FellBack(request)))]
  {
  }

  lemma FallbackIsCurrent(s: State, id: string, owner: string, request: Request, evidence: ApiEvidence, native: Handoff)
    requires Runnable(s, id) && Current(s, id, request)
             && FallbackPlan(s, id, owner, request, evidence, native).outcome.Done?
    ensures var u := Resulting(s, FallbackPlan(s, id, owner, request, evidence, native));
            && Runnable(u, id) && request.route.host == OpenRouter && native.route.host != OpenRouter
            && Current(u, id, Rerouted(s.records[id], request, native, Some(evidence)))
  {
    AuthoringStaysReady(s, id, FallBackTo(id, owner, request, evidence, native));
    FallbackMeans(s, id, owner, request, evidence, native);
    var run := s.records[id];
    RoutedStateIsCurrent(s, id, run, request, native, Some(evidence), FellBack(request));
  }

  // ----- Advancing -----

  /** After a repair moved to the capable route, `next` returns the rerouted request or nothing to invoke. */
  lemma RepairedNext(s: State, id: string, owner: string, request: Request, handoff: Handoff)
    requires Runnable(s, id) && Current(s, id, request) && request.repair
    requires RepairPlan(s, id, owner, handoff).outcome.Done?
    ensures var u := Resulting(s, RepairPlan(s, id, owner, handoff));
            var again := NextPlan(u, id, owner);
            && Runnable(u, id)
            && (again.outcome.Acted? && again.outcome.action.Native? ==>
                  && Resulting(u, again) == u && Current(u, id, again.outcome.action.request)
                  && again.outcome.action.request.repair && again.outcome.action.request.route == REPAIR_ROUTE)
  {
    RepairIsCurrent(s, id, owner, request, handoff);
    var u := Resulting(s, RepairPlan(s, id, owner, handoff));
    CurrentIsNext(u, id, owner, Rerouted(s.records[id], request, handoff, None));
    SavingAgainChangesNothing(u, id);
  }

  lemma RepairStep(d: Driver, s: State, id: string, owner: string, limit: nat, request: Request, handoff: Handoff)
    requires d.repairs <= limit && Runnable(s, id) && Current(s, id, request) && request.repair
    ensures var e := TakeUpRepair(d, s, id, owner, limit, request, handoff);
            && Good(e, id, limit) && !e.mode.Advance? && e.calls == d.calls && e.mutations == d.mutations
            && (e.mode.Ended? ==> !e.mode.success)
            && Potential(e, id, owner, limit) <= Cost(request, limit - d.repairs)
  {
    if d.repairs + 1 <= limit && request.route != REPAIR_ROUTE {
      AuthoringStaysReady(s, id, EscalateTo(id, owner, handoff));
      if RepairPlan(s, id, owner, handoff).outcome.Done? {
        RepairedNext(s, id, owner, request, handoff);
      }
    }
  }

  // ----- One advance -----

  ghost predicate SettledHere(run: Run, source: Tree) {
    var results := run.workflow.results;
    && NothingPending(run.workflow) && LastSettled(results).Some?
    && (LastSettled(results).value.accepted ==>
          var implementation := LastImplementation(results);
          implementation.Some? && implementation.value.accepted && implementation.value.response.source == source)
  }

  /** With a settled result and nothing pending, at most a review and the repairs left can follow. */
  lemma SettledCost(s: State, id: string, owner: string, left: nat)
    requires Runnable(s, id) && SettledHere(s.records[id], s.files)
    ensures var cost := ActionCost(NextPlan(s, id, owner).outcome, left);
            cost <= 2 + 3 * left && (!LastSettled(s.records[id].workflow.results).value.accepted ==> cost <= 3 * left)
  {
    RecordReady(s, id);
    var run := s.records[id];
    SettledNext(run, s.files, Valid(s, run, s.files));
    PlanOfDecision(s, id, owner, run, NextDirect(run, s.files, Valid(s, run, s.files)));
  }

  /** Turns of checking still to come. */
  function Measure(s: State, id: string, owner: string): nat {
    if AsksCheck(NextPlan(s, id, owner).outcome) then 1 + MissingCount(s, id) else 0
  }

  /** A run about to execute a check. */
  ghost predicate AboutToCheck(s: State, id: string, checkId: string) {
    Runnable(s, id) && Attested(s.records[id], s.files) && Checking(s, id, checkId)
  }

  lemma AskedCheck(s: State, id: string, owner: string, checkId: string)
    requires Runnable(s, id) && NextPlan(s, id, owner).outcome == Acted(RunCheck(checkId))
    ensures var u := Resulting(s, NextPlan(s, id, owner));
            AboutToCheck(u, id, checkId) && MissingCount(u, id) == MissingCount(s, id)
  {
    NextAsksCheck(s, id, owner, checkId);
    AuthoringStaysReady(s, id, NextStep(id, owner));
    RecordReady(s, id);
    CheckDecided(s, id, owner, checkId);
    CheckAsked(s.records[id], s.files, Valid(s, s.records[id], s.files), checkId);
    DropPendingKeepsBooks(s.records[id]);
    PerformOne(s, Save(DropPending(s.records[id])));
  }

  /** A check that leaves the source as it is leaves at most a review and the repairs left to follow. */
  lemma QuietCheckCosts(s: State, id: string, owner: string, checkId: string, command: Command, left: nat)
    requires AboutToCheck(s, id, checkId) && LeavesSource(s, command)
    requires CheckPlan(s, id, owner, checkId, command).outcome.Done?
    ensures var t := Resulting(s, CheckPlan(s, id, owner, checkId, command));
            Runnable(t, id) && ActionCost(NextPlan(t, id, owner).outcome, left) <= 2 + 3 * left
  {
    SoundIsKeyed(s);
    AuthoringStaysReady(s, id, RunDeclaredCheck(id, owner, checkId, command));
    CheckRecords(s, id, owner, checkId, command);
    SettledCost(Resulting(s, CheckPlan(s, id, owner, checkId, command)), id, owner, left);
  }

  lemma CheckStep(d: Driver, s: State, id: string, owner: string, limit: nat, checkId: string, command: Command)
    requires d.mode.Advance? && d.repairs <= limit && AboutToCheck(s, id, checkId)
    ensures var e := RunOne(d, s, id, owner, checkId, command);
            && Good(e, id, limit) && e.calls == d.calls && e.mutations <= d.mutations + 1
            && (LeavesSource(s, command) ==> e.mutations == d.mutations)
            && Potential(e, id, owner, limit) <= 2 + 3 * (limit - d.repairs) + 2 * (e.mutations - d.mutations)
            && (e.mode.Advance? ==> Measure(e.s, id, owner) <= MissingCount(s, id))
  {
    AuthoringStaysReady(s, id, RunDeclaredCheck(id, owner, checkId, command));
    if CheckPlan(s, id, owner, checkId, command).outcome.Done? {
      CheckTurn(s, id, owner, checkId, command);
      if LeavesSource(s, command) {
        QuietCheckCosts(s, id, owner, checkId, command, limit - d.repairs);
      }
      RanCheckSteps(d, Resulting(s, CheckPlan(s, id, owner, checkId, command)), id, owner, limit,
                    LeavesSource(s, command), MissingCount(s, id));
    }
  }

  lemma RanCheckSteps(d: Driver, t: State, id: string, owner: string, limit: nat, quiet: bool, missing: nat)
    requires d.mode.Advance? && d.repairs <= limit && Runnable(t, id)
    requires AsksCheck(NextPlan(t, id, owner).outcome) ==> MissingCount(t, id) + 1 == missing
    requires quiet ==> ActionCost(NextPlan(t, id, owner).outcome, limit - d.repairs) <= 2 + 3 * (limit - d.repairs)
    ensures var e := d.(s := t, mutations := d.mutations + if quiet then 0 else 1);
            && Good(e, id, limit)
            && Potential(e, id, owner, limit) <= 2 + 3 * (limit - d.repairs) + 2 * (e.mutations - d.mutations)
            && (e.mode.Advance? ==> Measure(e.s, id, owner) <= missing)
  {
  }

  /** What holds after the writes of a `next`, action by action. */
  ghost predicate Followable(s: State, id: string, outcome: Outcome) {
    && Runnable(s, id)
    && (outcome.Acted? && outcome.action.RunCheck? ==> AboutToCheck(s, id, outcome.action.id))
    && (outcome.Acted? && outcome.action.Native? ==> Current(s, id, outcome.action.request))
  }

  /** The verdict passes whenever the next action is to commit. */
  lemma ReadyVerifies(s: State, id: string, owner: string, source: Tree)
    requires Runnable(s, id) && NextPlan(s, id, owner).outcome == Acted(ReadyToCommit(source))
    ensures var u := Resulting(s, NextPlan(s, id, owner));
            VerifyPlan(u, id, owner).outcome.Done? && VerifyPlan(u, id, owner).outcome.run.verdict == Some(true)
  {
    RecordReady(s, id);
    CommitDecided(s, id, owner, source);
    var run, valid := s.records[id], Valid(s, s.records[id], s.files);
    var now := NextAction(run, s.files, valid).run;
    CommitMeansReady(run, s.files, valid);
    PerformOne(s, Save(now));
    ValidFrame(s, Put(s, Save(now)), run, now);
    StillAuthorized(s, Put(s, Save(now)), id, owner, now);
  }

  lemma CommitDecided(s: State, id: string, owner: string, source: Tree)
    requires NextPlan(s, id, owner).outcome == Acted(ReadyToCommit(source))
    ensures id in s.records && Authorize(s, id, owner, true) == Granted(s.records[id], s.files)
    ensures var decided := NextAction(s.records[id], s.files, Valid(s, s.records[id], s.files));
            && decided.Decided? && decided.action == ReadyToCommit(source)
            && NextPlan(s, id, owner).writes == [Save(decided.run)]
  {
  }

  lemma AttestedCommit(run: Run, source: Tree, valid: set<string>, implementation: StageResult)
    requires NextAttested(run, source, valid, implementation).action.ReadyToCommit?
    ensures NextAttested(run, source, valid, implementation).run == DropPending(run)
    ensures FirstMissing(run.task, valid).None? && DirectReady(DropPending(run), source)
  {
  }

  lemma CommitMeansReady(run: Run, source: Tree, valid: set<string>)
    requires run.integration.None? && Bookkept(run.workflow) && NextAction(run, source, valid).Decided?
    requires NextAction(run, source, valid).action.ReadyToCommit?
    ensures var now := NextAction(run, source, valid).run;
            && OnlyAsks(run, now) && DirectReady(now, source)
            && forall i | 0 <= i < |run.task.checks| :: run.task.checks[i].id in valid
  {
    NextKeepsBooks(run, source, valid);
    ImplementationIsNative(run, source);
    var implementation := LastImplementation(run.workflow.results);
    if implementation.Some?
       && NextDirect(run, source, valid) == NextAttested(run, source, valid, implementation.value) {
      AttestedCommit(run, source, valid, implementation.value);
      forall i | 0 <= i < |run.task.checks|
        ensures run.task.checks[i].id in valid
      {
        assert run.task.checks[i] in run.task.checks;
      }
    }
  }

  lemma StillAuthorized(s: State, u: State, id: string, owner: string, now: Run)
    requires id in s.records && s.records[id].task.id == id && OnlyAsks(s.records[id], now) && u == Put(s, Save(now))
    requires Authorize(s, id, owner, true) == Granted(s.records[id], s.files)
    ensures Authorize(u, id, owner, true) == Granted(now, u.files)
  {
  }

  lemma ConclusionStep(d: Driver, s: State, id: string, owner: string, limit: nat)
    requires d.repairs <= limit && Runnable(s, id)
    ensures var e := Conclusion(d, s, id, owner);
            && Good(e, id, limit) && e.mode.Ended? && e.calls == d.calls && e.mutations == d.mutations
            && (e.mode.success ==> e.s.records[id].verdict == Some(true))
  {
    AuthoringStaysReady(s, id, VerifyRun(id, owner));
    if VerifyPlan(s, id, owner).outcome.Done? {
      PerformOne(s, Save(VerifyPlan(s, id, owner).outcome.run));
    }
  }

  lemma FollowStep(d: Driver, plan: Plan, id: string, owner: string, limit: nat, command: Command, handoff: Handoff)
    requires d.mode.Advance? && d.repairs <= limit && Followable(Resulting(d.s, plan), id, plan.outcome)
    ensures var e := Follow(d, plan, id, owner, limit, command, handoff);
            && Good(e, id, limit) && e.calls == d.calls && d.mutations <= e.mutations <= d.mutations + 1
            && (LeavesSource(Resulting(d.s, plan), command) ==> e.mutations == d.mutations)
            && Potential(e, id, owner, limit)
               <= ActionCost(plan.outcome, limit - d.repairs) + 2 * (e.mutations - d.mutations)
            && (e.mode.Advance? ==> Measure(e.s, id, owner) <= MissingCount(Resulting(d.s, plan), id))
            && (e.mode.Ended? && e.mode.success ==> e.s.records[id].verdict == Some(true))
  {
    var s := Resulting(d.s, plan);
    match plan.outcome
    case Acted(RunCheck(checkId)) => CheckStep(d, s, id, owner, limit, checkId, command);
    case Acted(Native(request)) =>
      if request.repair {
        RepairStep(d, s, id, owner, limit, request, handoff);
      }
    case Acted(ReadyToCommit(_)) => ConclusionStep(d, s, id, owner, limit);
    case _ =>
  }

  lemma NextPrepares(s: State, id: string, owner: string)
    requires Runnable(s, id)
    ensures var plan := NextPlan(s, id, owner);
            && Followable(Resulting(s, plan), id, plan.outcome)
            && (AsksCheck(plan.outcome) ==> MissingCount(Resulting(s, plan), id) == MissingCount(s, id))
  {
    var plan := NextPlan(s, id, owner);
    AuthoringStaysReady(s, id, NextStep(id, owner));
    if AsksCheck(plan.outcome) {
      AskedCheck(s, id, owner, plan.outcome.action.id);
    } else if plan.outcome.Acted? && plan.outcome.action.Native? {
      NativeIsCurrent(s, id, owner, plan.outcome.action.request);
    }
  }

  lemma OnlyChecksRepeat(
    d: Driver, plan: Plan, id: string, owner: string, limit: nat, command: Command, handoff: Handoff)
    requires d.mode.Advance?
    ensures Follow(d, plan, id, owner, limit, command, handoff).mode.Advance? ==> AsksCheck(plan.outcome)
    ensures !AsksCheck(plan.outcome) ==> Follow(d, plan, id, owner, limit, command, handoff).mutations == d.mutations
  {
  }

  /** One turn of advancing: what is still possible rises only by what a changed source asks again, and the
      turn repeats only while checks are missing. */
  lemma AdvanceStep(d: Driver, id: string, owner: string, limit: nat, command: Command, handoff: Handoff)
    requires Good(d, id, limit) && d.mode.Advance?
    ensures var e := AdvanceOnce(d, id, owner, limit, command, handoff);
            && Good(e, id, limit) && e.calls == d.calls && d.mutations <= e.mutations <= d.mutations + 1
            && (LeavesSource(Resulting(d.s, NextPlan(d.s, id, owner)), command) ==> e.mutations == d.mutations)
            && Potential(e, id, owner, limit) <= Potential(d, id, owner, limit) + 2 * (e.mutations - d.mutations)
            && (e.mode.Advance? ==> Measure(e.s, id, owner) < Measure(d.s, id, owner))
            && (e.mode.Ended? && e.mode.success ==> e.s.records[id].verdict == Some(true))
  {
    NextPrepares(d.s, id, owner);
    FollowStep(d, NextPlan(d.s, id, owner), id, owner, limit, command, handoff);
    OnlyChecksRepeat(d, NextPlan(d.s, id, owner), id, owner, limit, command, handoff);
  }

  // ----- One executor call -----

  lemma FallbackStep(s: State, id: string, owner: string, request: Request, evidence: ApiEvidence, handoff: Handoff,
                     left: nat)
    requires Runnable(s, id) && Current(s, id, request) && (request.repair ==> request.route.host != OpenRouter)
    requires FallbackPlan(s, id, owner, request, evidence, handoff).outcome.Done?
    ensures var u := Resulting(s, FallbackPlan(s, id, owner, request, evidence, handoff));
            Runnable(u, id) && ActionCost(NextPlan(u, id, owner).outcome, left) < CallsOf(request) + 3 * left
  {
    FallbackIsCurrent(s, id, owner, request, evidence, handoff);
    var u := Resulting(s, FallbackPlan(s, id, owner, request, evidence, handoff));
    CurrentIsNext(u, id, owner, Rerouted(s.records[id], request, handoff, Some(evidence)));
  }

  function Submitted(run: Run, source: Tree, response: Response): Run {
    Answering(run, ResultOf(run, source, response)).(verdict := None)
  }

  lemma SubmitMeans(s: State, id: string, owner: string, response: Response)
    requires SubmitPlan(s, id, owner, response).outcome.Done?
             && SubmitPlan(s, id, owner, response).outcome.run.status == Active
    ensures id in s.records && SubmitRefusal(s, s.records[id], s.files, response).None?
    ensures !IsTransport(ResultOf(s.records[id], s.files, response))
    ensures SubmitPlan(s, id, owner, response).writes == [Save(Submitted(s.records[id], s.files, response))]
  {
  }

  /** What an accepted review was guarded by, in a run authored directly. */
  ghost predicate ReviewGuarded(s: State, run: Run, source: Tree, response: Response) {
    var implementation := LastImplementation(run.workflow.results);
    && implementation.Some? && implementation.value.accepted && implementation.value.response.source == source
    && |Valid(s, run, source)| == |run.task.checks|
    && response.request.prerequisites == ReviewPrerequisites(run, implementation.value)
  }

  lemma SubmitGuarded(s: State, run: Run, source: Tree, response: Response)
    requires run.integration.None? && SubmitRefusal(s, run, source, response).None?
    ensures response.request in run.workflow.requests && Open(run.workflow, response.request)
            && response.source == source
    ensures response.request.stage == Review ==> ReviewGuarded(s, run, source, response)
  {
  }

  lemma SubmittedSettles(s: State, run: Run, source: Tree, response: Response)
    requires run.integration.None? && Bookkept(run.workflow) && SubmitRefusal(s, run, source, response).None?
    requires !IsTransport(ResultOf(run, source, response))
    ensures SettledHere(Submitted(run, source, response), source)
    ensures LastSettled(Submitted(run, source, response).workflow.results) == Some(ResultOf(run, source, response))
  {
    SubmitGuarded(s, run, source, response);
    var result := ResultOf(run, source, response);
    ResultIsSound(run, source, response);
    AnswerKeepsBooks(run.workflow, result);
    AnsweredLasts(run.workflow.results, result);
  }

  /** Attested, nothing missing, reviewed: the next action is to commit. */
  lemma ReadyIsNext(now: Run, source: Tree, valid: set<string>)
    requires Attested(now, source) && Bookkept(now.workflow) && FirstMissing(now.task, valid).None?
             && DirectReady(now, source)
    ensures NextDirect(now, source, valid) == Decided(now, ReadyToCommit(source))
  {
    PendingIsTheNewest(now.workflow);
  }

  /** An accepted review leaves nothing to do but commit. */
  lemma AcceptedReviewIsReady(s: State, run: Run, response: Response)
    requires Bookkept(run.workflow) && DistinctChecks(run.task) && run.integration.None?
    requires SubmitRefusal(s, run, s.files, response).None? && response.request.stage == Review
    requires ResultOf(run, s.files, response).accepted && !IsTransport(ResultOf(run, s.files, response))
    ensures var now := Submitted(run, s.files, response);
            NextDirect(now, s.files, Valid(s, now, s.files)) == Decided(now, ReadyToCommit(s.files))
  {
    SubmitGuarded(s, run, s.files, response);
    ReviewLeadsToCommit(s, run, response);
  }

  lemma ReviewLeadsToCommit(s: State, run: Run, response: Response)
    requires Bookkept(run.workflow) && DistinctChecks(run.task) && response.request.stage == Review
             && response.source == s.files
    requires response.request in run.workflow.requests && Open(run.workflow, response.request)
    requires ReviewGuarded(s, run, s.files, response)
    requires ResultOf(run, s.files, response).accepted && !IsTransport(ResultOf(run, s.files, response))
    ensures var now := Submitted(run, s.files, response);
            NextDirect(now, s.files, Valid(s, now, s.files)) == Decided(now, ReadyToCommit(s.files))
  {
    var result, now := ResultOf(run, s.files, response), Submitted(run, s.files, response);
    ResultIsSound(run, s.files, response);
    AnswerKeepsBooks(run.workflow, result);
    AnsweredLasts(run.workflow.results, result);
    SubmittedKeepsChecks(s, run, response);
    ValidIsDeclared(s, now);
    NoneMissingIsAll(now, Valid(s, now, s.files));
    ReviewedIsReady(now, s.files, result);
    ReadyIsNext(now, s.files, Valid(s, now, s.files));
  }

  lemma SubmittedKeepsChecks(s: State, run: Run, response: Response)
    ensures var now := Submitted(run, s.files, response);
            Valid(s, now, s.files) == Valid(s, run, s.files) && CheckDigests(now) == CheckDigests(run)
  {
    assert CheckDigests(Submitted(run, s.files, response)) == CheckDigests(run);
  }

  lemma ReviewedIsReady(now: Run, source: Tree, review: StageResult)
    requires |now.workflow.results| > 0 && now.workflow.results[|now.workflow.results| - 1] == review
             && NothingPending(now.workflow)
    requires Bookkept(now.workflow) && review.accepted && review.request.stage == Review
             && review.response.source == source
    requires var implementation := LastImplementation(now.workflow.results);
             && implementation.Some? && implementation.value.accepted && implementation.value.response.source == source
             && review.request.prerequisites == ReviewPrerequisites(now, implementation.value)
    ensures DirectReady(now, source)
  {
  }

  lemma SubmittedCosts(s: State, u: State, id: string, owner: string, run: Run, response: Response, left: nat)
    requires Runnable(s, id) && Runnable(u, id) && s.records[id] == run && Bookkept(run.workflow)
             && DistinctChecks(run.task)
    requires SubmitRefusal(s, run, s.files, response).None? && !IsTransport(ResultOf(run, s.files, response))
    requires u == Put(s, Save(Submitted(run, s.files, response)))
    ensures ActionCost(NextPlan(u, id, owner).outcome, left) < CallsOf(response.request) + 3 * left
  {
    var now := Submitted(run, s.files, response);
    SubmittedSettles(s, run, s.files, response);
    SettledCost(u, id, owner, left);
    if response.request.stage == Review && ResultOf(run, s.files, response).accepted {
      AcceptedReviewIsReady(s, run, response);
      ReadyCostsNothing(u, id, owner, left, Decided(now, ReadyToCommit(s.files)));
    }
  }

  /** A submitted result leaves strictly fewer calls than were possible when its request was invoked. */
  lemma SubmitStep(s: State, id: string, owner: string, response: Response, left: nat)
    requires Runnable(s, id)
    requires SubmitPlan(s, id, owner, response).outcome.Done?
             && SubmitPlan(s, id, owner, response).outcome.run.status == Active
    ensures var u := Resulting(s, SubmitPlan(s, id, owner, response));
            Runnable(u, id) && ActionCost(NextPlan(u, id, owner).outcome, left) < CallsOf(response.request) + 3 * left
  {
    AuthoringStaysReady(s, id, SubmitResponse(id, owner, response));
    SubmitMeans(s, id, owner, response);
    RecordReady(s, id);
    PerformOne(s, Save(Submitted(s.records[id], s.files, response)));
    SubmittedCosts(s, Resulting(s, SubmitPlan(s, id, owner, response)), id, owner, s.records[id], response, left);
  }

  lemma ReadyCostsNothing(s: State, id: string, owner: string, left: nat, decided: Decision)
    requires id in s.records && decided.Decided? && decided.action.ReadyToCommit?
    requires NextAction(s.records[id], s.files, Valid(s, s.records[id], s.files)) == decided
    ensures ActionCost(NextPlan(s, id, owner).outcome, left) == 0
  {
    PlanOfDecision(s, id, owner, s.records[id], decided);
  }

  lemma ReadyWithFiles(s: State, id: string, files: Tree)
    requires Runnable(s, id)
    ensures Runnable(s.(files := files), id)
  {
    SameRecordsKeepAll(s, s.(files := files), Soundness());
  }

  lemma ConcludeStep(d: Driver, s: State, plan: Plan, id: string, owner: string, limit: nat, bound: nat)
    requires d.repairs <= limit && Runnable(Resulting(s, plan), id)
    requires plan.outcome.Done? && plan.outcome.run.status == Active ==>
               ActionCost(NextPlan(Resulting(s, plan), id, owner).outcome, limit - d.repairs) < bound
    requires 0 < bound
    ensures var e := Conclude(d, s, plan);
            Good(e, id, limit) && e.calls == d.calls && Potential(e, id, owner, limit) < bound
  {
  }

  lemma ReplyStep(s: State, id: string, owner: string, response: Response, left: nat)
    requires Runnable(s, id)
    ensures var plan := SubmitPlan(s, id, owner, response);
            && Runnable(Resulting(s, plan), id)
            && (plan.outcome.Done? && plan.outcome.run.status == Active ==>
                  ActionCost(NextPlan(Resulting(s, plan), id, owner).outcome, left) < CallsOf(response.request)
                    + 3 * left)
  {
    AuthoringStaysReady(s, id, SubmitResponse(id, owner, response));
    if SubmitPlan(s, id, owner, response).outcome.Done?
       && SubmitPlan(s, id, owner, response).outcome.run.status == Active {
      SubmitStep(s, id, owner, response, left);
    }
  }

  lemma ApiStep(s: State, id: string, owner: string, request: Request, evidence: ApiEvidence, handoff: Handoff,
                left: nat)
    requires Runnable(s, id) && Current(s, id, request) && (request.repair ==> request.route.host != OpenRouter)
    ensures var plan := FallbackPlan(s, id, owner, request, evidence, handoff);
            && Runnable(Resulting(s, plan), id)
            && (plan.outcome.Done?
                ==> ActionCost(NextPlan(Resulting(s, plan), id, owner).outcome, left) < CallsOf(request) + 3 * left)
  {
    AuthoringStaysReady(s, id, FallBackTo(id, owner, request, evidence, handoff));
    if FallbackPlan(s, id, owner, request, evidence, handoff).outcome.Done? {
      FallbackStep(s, id, owner, request, evidence, handoff, left);
    }
  }

  lemma PlanConcludes(d: Driver, s: State, plan: Plan, id: string, owner: string, limit: nat)
    requires Good(d, id, limit) && d.mode.Invoking? && Runnable(Resulting(s, plan), id)
    requires plan.outcome.Done? && plan.outcome.run.status == Active ==>
               ActionCost(NextPlan(Resulting(s, plan), id, owner).outcome, limit - d.repairs)
               < CallsOf(d.mode.request) + 3 * (limit - d.repairs)
    ensures var e := Conclude(d.(calls := d.calls + 1), s, plan);
            Good(e, id, limit) && e.calls == d.calls + 1
              && Potential(e, id, owner, limit) < Potential(d, id, owner, limit)
  {
    ConcludeStep(d.(calls := d.calls + 1), s, plan, id, owner, limit,
                 CallsOf(d.mode.request) + 3 * (limit - d.repairs));
  }

  lemma ReplyRespond(d: Driver, id: string, owner: string, response: Response, files: Tree, plan: Plan)
    requires d.mode.Invoking? && plan == SubmitPlan(d.s.(files := files), id, owner, response.(source := files))
    ensures Respond(d, id, owner, Reply(response, files)) ==
            if ReplyRefused(d, d.mode.request, response, files) then End(d.(calls := d.calls + 1), d.s, false)
            else Conclude(d.(calls := d.calls + 1), d.s.(files := files), plan)
  {
  }

  lemma ReplyConcludes(d: Driver, id: string, owner: string, limit: nat, response: Response, files: Tree)
    requires Good(d, id, limit) && d.mode.Invoking?
    ensures var e := Respond(d, id, owner, Reply(response, files));
            Good(e, id, limit) && e.calls == d.calls + 1
              && Potential(e, id, owner, limit) < Potential(d, id, owner, limit)
  {
    var s := d.s.(files := files);
    var plan := SubmitPlan(s, id, owner, response.(source := files));
    ReplyRespond(d, id, owner, response, files, plan);
    if !ReplyRefused(d, d.mode.request, response, files) {
      ReadyWithFiles(d.s, id, files);
      ReplyStep(s, id, owner, response.(source := files), limit - d.repairs);
      PlanConcludes(d, s, plan, id, owner, limit);
    }
  }

  lemma ApiRespond(d: Driver, id: string, owner: string, evidence: ApiEvidence, handoff: Handoff, plan: Plan)
    requires d.mode.Invoking? && plan == FallbackPlan(d.s, id, owner, d.mode.request, evidence, handoff)
    ensures Respond(d, id, owner, ApiFails(evidence, handoff)) == Conclude(d.(calls := d.calls + 1), d.s, plan)
  {
  }

  lemma ApiConcludes(d: Driver, id: string, owner: string, limit: nat, evidence: ApiEvidence, handoff: Handoff)
    requires Good(d, id, limit) && d.mode.Invoking?
    ensures var e := Respond(d, id, owner, ApiFails(evidence, handoff));
            Good(e, id, limit) && e.calls == d.calls + 1
              && Potential(e, id, owner, limit) < Potential(d, id, owner, limit)
  {
    ApiStep(d.s, id, owner, d.mode.request, evidence, handoff, limit - d.repairs);
    var plan := FallbackPlan(d.s, id, owner, d.mode.request, evidence, handoff);
    ApiRespond(d, id, owner, evidence, handoff, plan);
    PlanConcludes(d, d.s, plan, id, owner, limit);
  }

  /** Every executor call strictly lowers what is still possible. */
  lemma RespondStep(d: Driver, id: string, owner: string, limit: nat, answer: Answer)
    requires Good(d, id, limit) && d.mode.Invoking?
    ensures var e := Respond(d, id, owner, answer);
            Good(e, id, limit) && e.calls == d.calls + 1
              && Potential(e, id, owner, limit) < Potential(d, id, owner, limit)
  {
    match answer
    case Throws =>
    case ApiFails(evidence, handoff) => ApiConcludes(d, id, owner, limit, evidence, handoff);
    case Reply(response, files) => ReplyConcludes(d, id, owner, limit, response, files);
  }

  // ----- The whole loop -----

  /** What the surroundings do, turn by turn. */
  datatype Oracle = Oracle(commands: (nat, State) -> Command, handoffs: nat -> Handoff,
                           answers: (nat, Driver) -> Answer)

  /** One turn of the loop. */
  function Turn(d: Driver, id: string, owner: string, limit: nat, oracle: Oracle, turn: nat): Driver {
    match d.mode
    case Advance =>
      var s := Resulting(d.s, NextPlan(d.s, id, owner));
      AdvanceOnce(d, id, owner, limit, oracle.commands(turn, s), oracle.handoffs(turn))
    case Invoking(_) => Respond(d, id, owner, oracle.answers(turn, d))
    case Ended(_) => d
  }

  function Turns(d: Driver, id: string, owner: string, limit: nat, oracle: Oracle, turns: nat): Driver {
    if turns == 0 then d else Turn(Turns(d, id, owner, limit, oracle, turns - 1), id, owner, limit, oracle, turns - 1)
  }

  lemma RespondCounts(d: Driver, id: string, owner: string, answer: Answer)
    requires d.mode.Invoking?
    ensures var e := Respond(d, id, owner, answer);
            e.mutations == d.mutations && (e.mode.Ended? ==> !e.mode.success)
  {
  }

  /** One turn keeps the loop in order; calls and possible calls rise together only with a changed source. */
  lemma TurnStep(d: Driver, id: string, owner: string, limit: nat, oracle: Oracle, turn: nat)
    requires Good(d, id, limit)
    ensures var e := Turn(d, id, owner, limit, oracle, turn);
            && Good(e, id, limit) && d.mutations <= e.mutations <= d.mutations + 1
            && e.calls + Potential(e, id, owner, limit)
               <= d.calls + Potential(d, id, owner, limit) + 2 * (e.mutations - d.mutations)
            && (d.mode.Invoking? ==> Potential(e, id, owner, limit) < Potential(d, id, owner, limit))
            && (d.mode.Advance? && e.mode.Advance? ==> Measure(e.s, id, owner) < Measure(d.s, id, owner))
            && (!d.mode.Ended? && e.mode.Ended? && e.mode.success ==> e.s.records[id].verdict == Some(true))
  {
    match d.mode
    case Advance =>
      var s := Resulting(d.s, NextPlan(d.s, id, owner));
      AdvanceStep(d, id, owner, limit, oracle.commands(turn, s), oracle.handoffs(turn));
    case Invoking(_) =>
      RespondStep(d, id, owner, limit, oracle.answers(turn, d));
      RespondCounts(d, id, owner, oracle.answers(turn, d));
    case Ended(_) =>
  }

  /** A turn whose command leaves the source as it is changes no count of mutations. */
  lemma QuietTurn(d: Driver, id: string, owner: string, limit: nat, oracle: Oracle, turn: nat)
    requires Good(d, id, limit) && forall s :: LeavesSource(s, oracle.commands(turn, s))
    ensures Turn(d, id, owner, limit, oracle, turn).mutations == d.mutations
  {
    match d.mode
    case Advance =>
      var s := Resulting(d.s, NextPlan(d.s, id, owner));
      AdvanceStep(d, id, owner, limit, oracle.commands(turn, s), oracle.handoffs(turn));
    case Invoking(_) => RespondCounts(d, id, owner, oracle.answers(turn, d));
    case Ended(_) =>
  }

  function Begun(s: State, planRefused: bool): Driver {
    Driver(s, Advance, 0, if planRefused then 2 else 1, 0)
  }

  lemma InitialPotential(s: State, id: string, owner: string, limit: nat, planRefused: bool)
    ensures Potential(Begun(s, planRefused), id, owner, limit) <= 4 + 3 * limit
  {
  }

  /** For every behaviour of commands, executors and fallbacks and any number of turns: at most
      3 * limit + 6 executor calls, and two more for each check whose command changed the source. */
  lemma {:induction false} CallsAreBounded(
    s: State, id: string, owner: string, limit: nat, planRefused: bool, oracle: Oracle, turns: nat)
    requires Runnable(s, id)
    ensures var d := Turns(Begun(s, planRefused), id, owner, limit, oracle, turns);
            && Good(d, id, limit)
            && d.calls + Potential(d, id, owner, limit) <= 3 * limit + 6 + 2 * d.mutations
  {
    if turns == 0 {
      InitialPotential(s, id, owner, limit, planRefused);
    } else {
      CallsAreBounded(s, id, owner, limit, planRefused, oracle, turns - 1);
      TurnStep(Turns(Begun(s, planRefused), id, owner, limit, oracle, turns - 1), id, owner, limit, oracle, turns - 1);
    }
  }

  /** What holds before each turn. */
  ghost predicate InLoop(d: Driver, id: string, owner: string, limit: nat, turn: nat, quietFrom: nat) {
    && Good(d, id, limit) && d.mutations <= turn && d.mutations <= quietFrom
    && d.calls + Potential(d, id, owner, limit) <= 3 * limit + 6 + 2 * d.mutations
    && (d.mode.Ended? && d.mode.success ==> d.s.records[id].verdict == Some(true))
  }

  /** The turns left of a loop whose checks no longer change the source. */
  ghost predicate Lower(e: Driver, d: Driver, id: string, owner: string, limit: nat)
    requires d.repairs <= limit && e.repairs <= limit
  {
    || Potential(e, id, owner, limit) < Potential(d, id, owner, limit)
    || (Potential(e, id, owner, limit) == Potential(d, id, owner, limit) && d.mode.Advance?
        && (!e.mode.Advance? || Measure(e.s, id, owner) < Measure(d.s, id, owner)))
  }

  lemma LoopTurn(d: Driver, id: string, owner: string, limit: nat, oracle: Oracle, turn: nat, quietFrom: nat)
    requires InLoop(d, id, owner, limit, turn, quietFrom) && !d.mode.Ended?
    requires quietFrom <= turn ==> forall t :: LeavesSource(t, oracle.commands(turn, t))
    ensures var e := Turn(d, id, owner, limit, oracle, turn);
            InLoop(e, id, owner, limit, turn + 1, quietFrom) && (quietFrom <= turn ==> Lower(e, d, id, owner, limit))
  {
    TurnStep(d, id, owner, limit, oracle, turn);
    if quietFrom <= turn {
      QuietTurn(d, id, owner, limit, oracle, turn);
    }
  }

  /** `runDeliveryOutcome`: one planning call, tried again once when the API refused it, then the loop. When
      from some turn on no check changes the source, it ends; with `quietFrom` zero, within 3 * limit + 6 calls. */
  method RunDeliveryOutcome(
    s: State, id: string, owner: string, limit: nat, planRefused: bool, planned: bool, oracle: Oracle,
    ghost quietFrom: nat)
    returns (d: Driver)
    requires Runnable(s, id)
    requires forall turn, t | quietFrom <= turn :: LeavesSource(t, oracle.commands(turn, t))
    ensures d.mode.Ended? && d.repairs <= limit
    ensures d.calls <= 3 * limit + 6 + 2 * d.mutations && d.mutations <= quietFrom
    ensures d.mode.success ==> id in d.s.records && d.s.records[id].verdict == Some(true)
  {
    d := Begun(s, planRefused);
    if !planned {
      return d.(mode := Ended(false));
    }
    var turn := 0;
    InitialPotential(s, id, owner, limit, planRefused);
    while !d.mode.Ended?
      invariant InLoop(d, id, owner, limit, turn, quietFrom)
      decreases if turn < quietFrom then quietFrom - turn else 0, Potential(d, id, owner, limit),
                if d.mode.Advance? then 1 else 0, if d.mode.Advance? then Measure(d.s, id, owner) else 0
    {
      LoopTurn(d, id, owner, limit, oracle, turn, quietFrom);
      d := Turn(d, id, owner, limit, oracle, turn);
      turn := turn + 1;
    }
  }
}
