/** Why the bound on executor calls counts changed sources: a check that rewrites the scope it checks. */
module RunnerChurn {
  import opened Basics
  import opened Integration
  import opened Records
  import opened Workflows
  import opened WorkflowLaws
  import opened Prerequisites
  import opened Lifecycle
  import opened LifecycleSteps
  import opened LifecycleSaves
  import opened LifecycleClaims
  import opened Advancing
  import opened Runner

  // ----- The exact condition, check by check -----

  /** After a check asked for by the loop, at most a review and the repairs left follow exactly when its
      command left the files as they were; otherwise the implementation is asked for again, not as a repair. */
  lemma BudgetHoldsExactlyForQuietChecks(s: State, id: string, owner: string, checkId: string, command: Command,
                                         left: nat)
    requires AboutToCheck(s, id, checkId) && CheckPlan(s, id, owner, checkId, command).outcome.Done?
    ensures var t := Resulting(s, CheckPlan(s, id, owner, checkId, command));
            && id in t.records
            && var decided := NextDirect(t.records[id], t.files, Valid(t, t.records[id], t.files));
               && decided.Decided?
               && (ActionCost(Acted(decided.action), left) <= 2 + 3 * left <==> command.files == s.files)
               && (command.files != s.files ==>
                     decided.action.Native? && decided.action.request.stage == Implementation
                     && !decided.action.request.repair)
  {
    SoundIsKeyed(s);
    AuthoringStaysReady(s, id, RunDeclaredCheck(id, owner, checkId, command));
    CheckRecords(s, id, owner, checkId, command);
    var t := Resulting(s, CheckPlan(s, id, owner, checkId, command));
    RecordReady(t, id);
    CheckedDecision(s.records[id], t.records[id], s.files, t.files, Valid(t, t.records[id], t.files), left);
  }

  lemma CheckedDecision(run: Run, now: Run, source: Tree, files: Tree, valid: set<string>, left: nat)
    requires Attested(run, source) && now.workflow == run.workflow && Bookkept(now.workflow)
    ensures var decided := NextDirect(now, files, valid);
            && decided.Decided?
            && (ActionCost(Acted(decided.action), left) <= 2 + 3 * left <==> files == source)
            && (files != source ==>
                  decided.action.Native? && decided.action.request.stage == Implementation
                    && !decided.action.request.repair)
  {
    PendingIsTheNewest(now.workflow);
    if files == source {
      SettledNext(now, files, valid);
    }
  }

  // ----- A loop without end -----

  /** The command of the check writes a scoped path: never what is there. */
  function Flipped(files: Tree, path: Path): Tree {
    files[path := if Get(files, path) == Some("0") then "1" else "0"]
  }

  function Flip(s: State, path: Path): Command {
    Command(true, "", "", Flipped(s.files, path), s.head)
  }

  /** The executor re-attests the source as it finds it. */
  function ReAttest(d: Driver): Answer {
    if !d.mode.Invoking? || d.mode.request.executor.None? then Throws
    else
      var request := d.mode.request;
      Reply(Response(request, d.s.files, Handoff(request.route, request.executor.value), Completed, None), d.s.files)
  }

  function Churn(path: Path): Oracle {
    Oracle((turn, s) => Flip(s, path), turn => Handoff(REPAIR_ROUTE, ""), (turn, d) => ReAttest(d))
  }

  ghost predicate ChecksIntact(s: State, run: Run) {
    forall i | 0 <= i < |run.checks| ::
      run.checks[i].environment == s.environment && LogsIntact(run.task.id, run.checks[i], s.logs)
  }

  ghost predicate LogsFresh(s: State, run: Run, checkId: string) {
    forall log | log in s.logs && log.run == run.task.id && log.check == checkId ::
      log.attempt <= StartCount(run.events, checkId)
  }

  /** The claimed run's first declared check neither counts nor failed here, in a workspace nobody else touches. */
  ghost predicate CheckDue(s: State, run: Run, owner: string, path: Path) {
    && s.active == Some(run.task.id) && run.task.owner == owner && run.status == Active && SourceRefusal(s, run).None?
    && path in run.task.scope && |run.handoffs| > 0 && |run.task.checks| > 0
    && !CheckValid(run, run.task.checks[0].id, s.files, s.environment, s.logs)
    && !FailedAt(run, run.task.checks[0].id, s.files)
    && ChecksIntact(s, run) && LogsFresh(s, run, run.task.checks[0].id)
  }

  /** The attested run is about to run its first declared check. */
  ghost predicate Churning(s: State, id: string, owner: string, path: Path) {
    Runnable(s, id) && CheckDue(s, s.records[id], owner, path) && Attested(s.records[id], s.files)
  }

  lemma DueFrame(s: State, u: State, run: Run, now: Run, owner: string, path: Path)
    requires CheckDue(s, run, owner, path) && now.task == run.task && now.status == run.status
    requires now.baseCommit == run.baseCommit && now.outside == run.outside && now.handoffs == run.handoffs
    requires now.checks == run.checks && now.events == run.events
    requires u.active == s.active && u.files == s.files && u.head == s.head && u.logs == s.logs
             && u.environment == s.environment
    ensures CheckDue(u, now, owner, path)
  {
  }

  lemma FlipMoves(files: Tree, path: Path, scope: set<Path>)
    requires path in scope
    ensures Flipped(files, path) != files && Outside(Flipped(files, path), scope) == Outside(files, scope)
  {
    assert Get(Flipped(files, path), path) != Get(files, path);
  }

  /** The first declared check is the first missing one. */
  lemma FirstIsMissing(s: State, run: Run)
    requires |run.task.checks| > 0 && DistinctChecks(run.task)
    requires !CheckValid(run, run.task.checks[0].id, s.files, s.environment, s.logs)
    ensures FirstMissing(run.task, Valid(s, run, s.files)) == Some(run.task.checks[0])
  {
  }

  lemma FindsFirst(task: Task)
    requires |task.checks| > 0
    ensures FindCheck(task, task.checks[0].id) == Some(task.checks[0])
  {
  }

  /** The first turn: the check is asked for, runs, and leaves another tree. */
  lemma ChurnChecks(s: State, id: string, owner: string, path: Path)
    requires Churning(s, id, owner, path)
    ensures var checkId := s.records[id].task.checks[0].id;
            && NextPlan(s, id, owner).outcome == Acted(RunCheck(checkId)) && Resulting(s, NextPlan(s, id, owner)) == s
            && CheckPlan(s, id, owner, checkId, Flip(s, path)).outcome.Done?
  {
    var run := s.records[id];
    RecordReady(s, id);
    FirstIsMissing(s, run);
    FindsFirst(run.task);
    PendingIsTheNewest(run.workflow);
    assert DropPending(run) == run;
    AttestedAsks(run, s.files, Valid(s, run, s.files));
    PlanFromDecision(s, id, owner, run, Decided(run, RunCheck(run.task.checks[0].id)));
    SavingAgainChangesNothing(s, id);
  }

  lemma AttestedAsks(run: Run, source: Tree, valid: set<string>)
    requires Attested(run, source) && Bookkept(run.workflow) && run.integration.None?
             && FirstMissing(run.task, valid).Some?
    requires !FailedAt(run, FirstMissing(run.task, valid).value.id, source)
    ensures NextAction(run, source, valid) == Decided(run, RunCheck(FirstMissing(run.task, valid).value.id))
  {
    PendingIsTheNewest(run.workflow);
  }

  lemma PlanFromDecision(s: State, id: string, owner: string, run: Run, decided: Decision)
    requires id in s.records && s.records[id] == run && run.task.id == id && s.active == Some(id)
    requires run.task.owner == owner && run.status == Active && SourceRefusal(s, run).None? && decided.Decided?
    requires decided.action.Native? ==> PrerequisitesIntact(decided.run, decided.action.request, s.environment, s.logs)
    requires NextAction(run, s.files, Valid(s, run, s.files)) == decided
    ensures NextPlan(s, id, owner) == Plan([Save(decided.run)], Acted(decided.action))
  {
  }

  /** The source after the flip: attested elsewhere, every log in place. */
  ghost predicate Moved(t: State, id: string, owner: string, path: Path) {
    && Runnable(t, id) && CheckDue(t, t.records[id], owner, path)
    && var run := t.records[id];
       && NothingPending(run.workflow)
       && LastSettled(run.workflow.results).Some? && LastSettled(run.workflow.results).value.accepted
       && LastImplementation(run.workflow.results).Some? && LastImplementation(run.workflow.results).value.accepted
       && LastImplementation(run.workflow.results).value.response.source != t.files
  }

  lemma ChurnMoves(s: State, id: string, owner: string, path: Path)
    requires Churning(s, id, owner, path)
    ensures Moved(Resulting(s, CheckPlan(s, id, owner, s.records[id].task.checks[0].id, Flip(s, path))), id, owner,
                  path)
  {
    var run, checkId, command := s.records[id], s.records[id].task.checks[0].id, Flip(s, path);
    SoundIsKeyed(s);
    ChurnChecks(s, id, owner, path);
    CheckRecords(s, id, owner, checkId, command);
    AuthoringStaysReady(s, id, RunDeclaredCheck(id, owner, checkId, command));
    FlipMoves(s.files, path, Elements(run.task.scope));
    var t := Resulting(s, CheckPlan(s, id, owner, checkId, command));
    var check := CheckOf(s, run, FindCheck(run.task, checkId).value, command);
    ThisCheckIsValid(s, t, run, t.records[id], check, command.files);
    RecordedKeepsIntact(s, t, run, t.records[id], check, command.files);
    RecordedKeepsFresh(s, t, run, t.records[id], check, command.files);
  }

  lemma RecordedKeepsIntact(s: State, t: State, run: Run, now: Run, check: Check, files: Tree)
    requires Recorded(s, t, run, now, check, files) && ChecksIntact(s, run)
    ensures ChecksIntact(t, now)
  {
  }

  lemma RecordedKeepsFresh(s: State, t: State, run: Run, now: Run, check: Check, files: Tree)
    requires Recorded(s, t, run, now, check, files) && LogsFresh(s, run, check.spec.id)
    ensures LogsFresh(t, now, check.spec.id)
  {
    assert now.events[..|run.events|] == run.events;
    forall log | log in t.logs && log.run == now.task.id && log.check == check.spec.id
      ensures log.attempt <= StartCount(now.events, check.spec.id)
    {
      if log in s.logs {
        assert log.attempt <= StartCount(run.events, check.spec.id);
      }
    }
  }

  /** The second turn: the implementation is asked for again, not as a repair. */
  lemma MovedAsks(t: State, id: string, owner: string, path: Path)
    requires Moved(t, id, owner, path)
    ensures var run := t.records[id];
            var decided := NextImplementation(run, t.files);
            && decided.Decided? && decided.action.Native? && OnlyAsks(run, decided.run)
            && var request := decided.action.request;
               && request.stage == Implementation && !request.repair && request.route == run.route
               && request.executor == Some(run.handoffs[|run.handoffs| - 1].executor)
               && request.evidence == EvidenceOf(run) && Pending(decided.run.workflow) == Some(request)
               && NextPlan(t, id, owner) == Plan([Save(decided.run)], Acted(decided.action))
  {
    var run, valid := t.records[id], Valid(t, t.records[id], t.files);
    RecordReady(t, id);
    MovedDecision(run, t.files, valid);
    var decided := NextImplementation(run, t.files);
    DirectShape(run, t.files, valid);
    ShapeKeepsBooks(run, t.files, decided);
    IntactPrerequisites(t, run, decided.run, decided.action.request);
    PlanFromDecision(t, id, owner, run, decided);
  }

  lemma MovedDecision(run: Run, source: Tree, valid: set<string>)
    requires NothingPending(run.workflow) && Bookkept(run.workflow) && run.integration.None? && |run.handoffs| > 0
    requires LastSettled(run.workflow.results).Some? && LastSettled(run.workflow.results).value.accepted
    requires LastImplementation(run.workflow.results).Some?
    requires LastImplementation(run.workflow.results).value.response.source != source
    ensures var decided := NextImplementation(run, source);
            && NextAction(run, source, valid) == decided && NextDirect(run, source, valid) == decided
            && decided.Decided? && decided.action.Native?
            && var request := decided.action.request;
               && request.stage == Implementation && !request.repair && request.route == run.route
               && request.executor == Some(run.handoffs[|run.handoffs| - 1].executor)
               && request.evidence == EvidenceOf(run)
  {
    PendingIsTheNewest(run.workflow);
  }

  lemma IntactPrerequisites(t: State, run: Run, now: Run, request: Request)
    requires ChecksIntact(t, run) && OnlyAsks(run, now)
    ensures PrerequisitesIntact(now, request, t.environment, t.logs)
  {
  }

  /** The third turn: the re-attested implementation is accepted, and the first check is due again. */
  lemma MovedReturns(t: State, id: string, owner: string, path: Path)
    requires Moved(t, id, owner, path)
    ensures var u := Resulting(t, NextPlan(t, id, owner));
            var request := NextImplementation(t.records[id], t.files).action.request;
            var response := Response(request, u.files, Handoff(request.route, request.executor.value), Completed, None);
            && SubmitPlan(u, id, owner, response).outcome.Done?
            && SubmitPlan(u, id, owner, response).outcome.run.status == Active
            && Churning(Resulting(u, SubmitPlan(u, id, owner, response)), id, owner, path)
  {
    MovedAsks(t, id, owner, path);
    AuthoringStaysReady(t, id, NextStep(id, owner));
    var decided := NextImplementation(t.records[id], t.files);
    PerformOne(t, Save(decided.run));
    AskedReturns(t, Put(t, Save(decided.run)), id, owner, path, decided.run, decided.action.request);
  }

  lemma AskedReturns(t: State, u: State, id: string, owner: string, path: Path, now: Run, request: Request)
    requires Moved(t, id, owner, path) && OnlyAsks(t.records[id], now) && u == Put(t, Save(now)) && Runnable(u, id)
    requires request.stage == Implementation && !request.repair && Pending(now.workflow) == Some(request)
    requires request.evidence == EvidenceOf(t.records[id])
    requires request.executor == Some(now.handoffs[|now.handoffs| - 1].executor)
    ensures var response := Response(request, u.files, Handoff(request.route, request.executor.value), Completed, None);
            && SubmitPlan(u, id, owner, response).outcome.Done?
            && SubmitPlan(u, id, owner, response).outcome.run.status == Active
            && Churning(Resulting(u, SubmitPlan(u, id, owner, response)), id, owner, path)
  {
    var response := Response(request, u.files, Handoff(request.route, request.executor.value), Completed, None);
    AskedSubmits(t, u, id, owner, path, now, response);
    AuthoringStaysReady(u, id, SubmitResponse(id, owner, response));
    ReturnedState(t, u, id, owner, path, now, response);
  }

  lemma AskedSubmits(t: State, u: State, id: string, owner: string, path: Path, now: Run, response: Response)
    requires Moved(t, id, owner, path) && OnlyAsks(t.records[id], now) && u == Put(t, Save(now)) && Runnable(u, id)
    requires Pending(now.workflow) == Some(response.request) && response.request.evidence == EvidenceOf(t.records[id])
    requires response.request.stage == Implementation && !response.request.repair
    requires response == Response(response.request, u.files, response.native, Completed, None)
    requires response.native.route == response.request.route
    requires response.request.executor == Some(response.native.executor)
    requires response.native.executor == now.handoffs[|now.handoffs| - 1].executor
    ensures Bookkept(now.workflow) && now.integration.None?
    ensures SubmitRefusal(u, now, u.files, response).None? && ResultOf(now, u.files, response).accepted
    ensures SubmitPlan(u, id, owner, response)
            == Plan([Save(Submitted(now, u.files, response))], Done(Submitted(now, u.files, response)))
  {
    RecordReady(u, id);
    AskingKeepsEvidence(t.records[id], now);
    IntactPrerequisites(t, t.records[id], now, response.request);
    ReAttestationSubmits(u, id, owner, now, response);
  }

  lemma ReAttestationSubmits(u: State, id: string, owner: string, now: Run, response: Response)
    requires id in u.records && u.records[id] == now && now.task.id == id && u.active == Some(id)
    requires now.task.owner == owner && now.status == Active && SourceRefusal(u, now).None? && |now.handoffs| > 0
    requires response.request in now.workflow.requests && Open(now.workflow, response.request)
    requires response.request.stage == Implementation && !response.request.repair
    requires response.request.evidence == EvidenceOf(now)
    requires PrerequisitesIntact(now, response.request, u.environment, u.logs)
    requires response.source == u.files && response.rootApplication.None? && response.outcome == Completed
    requires response.native.route == response.request.route
             && response.request.executor == Some(response.native.executor)
    requires response.native.executor == now.handoffs[|now.handoffs| - 1].executor
    ensures SubmitRefusal(u, now, u.files, response).None? && ResultOf(now, u.files, response).accepted
    ensures SubmitPlan(u, id, owner, response)
            == Plan([Save(Submitted(now, u.files, response))], Done(Submitted(now, u.files, response)))
  {
  }

  lemma ReturnedState(t: State, u: State, id: string, owner: string, path: Path, now: Run, response: Response)
    requires Moved(t, id, owner, path) && OnlyAsks(t.records[id], now) && u == Put(t, Save(now))
             && Bookkept(now.workflow)
    requires SubmitRefusal(u, now, u.files, response).None? && ResultOf(now, u.files, response).accepted
    requires response.request.stage == Implementation && response.source == u.files && now.integration.None?
    requires Runnable(Perform(u, [Save(Submitted(now, u.files, response))]), id)
    ensures Churning(Perform(u, [Save(Submitted(now, u.files, response))]), id, owner, path)
  {
    var submitted := Submitted(now, u.files, response);
    PerformOne(u, Save(submitted));
    DueFrame(t, Put(u, Save(submitted)), t.records[id], submitted, owner, path);
    SubmittedAttests(u, now, response);
  }

  lemma SubmittedAttests(u: State, now: Run, response: Response)
    requires Bookkept(now.workflow) && now.integration.None? && response.request.stage == Implementation
    requires SubmitRefusal(u, now, u.files, response).None? && ResultOf(now, u.files, response).accepted
    ensures Attested(Submitted(now, u.files, response), u.files)
  {
    ResultIsSound(now, u.files, response);
    SubmittedSettles(u, now, u.files, response);
    AnsweredLasts(now.workflow.results, ResultOf(now, u.files, response));
    SubmitGuarded(u, now, u.files, response);
  }

  lemma RoundTurns(d: Driver, id: string, owner: string, limit: nat, path: Path, turn: nat)
    requires d.mode.Advance? && Churning(d.s, id, owner, path)
    ensures var oracle := Churn(path);
            var e := Turn(Turn(Turn(d, id, owner, limit, oracle, turn), id, owner, limit, oracle, turn + 1),
                          id, owner, limit, oracle, turn + 2);
            && e.mode.Advance? && Churning(e.s, id, owner, path) && e.calls == d.calls + 1 && e.repairs == d.repairs
  {
    var oracle := Churn(path);
    ChurnChecks(d.s, id, owner, path);
    ChurnMoves(d.s, id, owner, path);
    var t := Resulting(d.s, CheckPlan(d.s, id, owner, d.s.records[id].task.checks[0].id, Flip(d.s, path)));
    FirstTurn(d, id, owner, limit, path, turn);
    var d1 := Turn(d, id, owner, limit, oracle, turn);
    MovedAsks(t, id, owner, path);
    SecondTurn(d1, id, owner, limit, path, turn + 1);
    MovedReturns(t, id, owner, path);
    ThirdTurn(Turn(d1, id, owner, limit, oracle, turn + 1), id, owner, limit, path, turn + 2);
  }

  lemma FirstTurn(d: Driver, id: string, owner: string, limit: nat, path: Path, turn: nat)
    requires d.mode.Advance? && Churning(d.s, id, owner, path)
    ensures var e := Turn(d, id, owner, limit, Churn(path), turn);
            var checkId := d.s.records[id].task.checks[0].id;
            && e.mode.Advance? && e.calls == d.calls && e.repairs == d.repairs
            && e.s == Resulting(d.s, CheckPlan(d.s, id, owner, checkId, Flip(d.s, path)))
  {
    ChurnChecks(d.s, id, owner, path);
  }

  lemma SecondTurn(d: Driver, id: string, owner: string, limit: nat, path: Path, turn: nat)
    requires d.mode.Advance? && Moved(d.s, id, owner, path)
    ensures var e := Turn(d, id, owner, limit, Churn(path), turn);
            var request := NextImplementation(d.s.records[id], d.s.files).action.request;
            && e.mode == Invoking(request) && e.calls == d.calls && e.repairs == d.repairs
            && e.s == Resulting(d.s, NextPlan(d.s, id, owner))
  {
    MovedAsks(d.s, id, owner, path);
  }

  lemma ThirdTurn(d: Driver, id: string, owner: string, limit: nat, path: Path, turn: nat)
    requires d.mode.Invoking? && d.mode.request.executor.Some?
    requires var request := d.mode.request;
             var response := Response(request, d.s.files, Handoff(request.route, request.executor.value), Completed,
                                      None);
             && SubmitPlan(d.s, id, owner, response).outcome.Done?
             && SubmitPlan(d.s, id, owner, response).outcome.run.status == Active
             && Churning(Resulting(d.s, SubmitPlan(d.s, id, owner, response)), id, owner, path)
    ensures var e := Turn(d, id, owner, limit, Churn(path), turn);
            e.mode.Advance? && Churning(e.s, id, owner, path) && e.calls == d.calls + 1 && e.repairs == d.repairs
  {
    var request := d.mode.request;
    var response := Response(request, d.s.files, Handoff(request.route, request.executor.value), Completed, None);
    assert ReAttest(d) == Reply(response, d.s.files);
    assert d.s.(files := d.s.files) == d.s && response.(source := d.s.files) == response;
  }

  lemma ThreeTurns(d: Driver, id: string, owner: string, limit: nat, oracle: Oracle, n: nat)
    ensures Turns(d, id, owner, limit, oracle, n + 3)
            == Turn(Turn(Turn(Turns(d, id, owner, limit, oracle, n), id, owner, limit, oracle, n),
                         id, owner, limit, oracle, n + 1), id, owner, limit, oracle, n + 2)
  {
    OneTurn(d, id, owner, limit, oracle, n);
    OneTurn(d, id, owner, limit, oracle, n + 1);
    OneTurn(d, id, owner, limit, oracle, n + 2);
  }

  lemma OneTurn(d: Driver, id: string, owner: string, limit: nat, oracle: Oracle, n: nat)
    ensures Turns(d, id, owner, limit, oracle, n + 1)
            == Turn(Turns(d, id, owner, limit, oracle, n), id, owner, limit, oracle, n)
  {
  }

  /** The loop is where it was, with more calls made and no repair used. */
  ghost predicate Churned(d: Driver, e: Driver, id: string, owner: string, path: Path, more: nat) {
    e.mode.Advance? && Churning(e.s, id, owner, path) && e.calls == d.calls + more && e.repairs == d.repairs
  }

  function Round(e: Driver, id: string, owner: string, limit: nat, oracle: Oracle, turn: nat): Driver {
    Turn(Turn(Turn(e, id, owner, limit, oracle, turn), id, owner, limit, oracle, turn + 1),
         id, owner, limit, oracle, turn + 2)
  }

  lemma RoundChurns(
    d: Driver, e: Driver, next: Driver, id: string, owner: string, limit: nat, path: Path, turn: nat, more: nat)
    requires Churned(d, e, id, owner, path, more) && next == Round(e, id, owner, limit, Churn(path), turn)
    ensures Churned(d, next, id, owner, path, more + 1)
  {
    RoundTurns(e, id, owner, limit, path, turn);
  }

  lemma RoundOfTurns(d: Driver, id: string, owner: string, limit: nat, oracle: Oracle, n: nat)
    ensures Turns(d, id, owner, limit, oracle, n + 3)
            == Round(Turns(d, id, owner, limit, oracle, n), id, owner, limit, oracle, n)
  {
    ThreeTurns(d, id, owner, limit, oracle, n);
  }

  /** After some number of turns the loop has made that many more calls. */
  ghost predicate ChurnsFor(d: Driver, id: string, owner: string, limit: nat, path: Path, more: nat) {
    exists turns: nat :: Churned(d, Turns(d, id, owner, limit, Churn(path), turns), id, owner, path, more)
  }

  lemma ChurnsAtFirst(d: Driver, id: string, owner: string, limit: nat, path: Path)
    requires d.mode.Advance? && Churning(d.s, id, owner, path)
    ensures ChurnsFor(d, id, owner, limit, path, 0)
  {
    assert Turns(d, id, owner, limit, Churn(path), 0) == d && Churned(d, d, id, owner, path, 0);
  }

  lemma ChurnsOn(d: Driver, id: string, owner: string, limit: nat, path: Path, more: nat)
    requires more > 0 && ChurnsFor(d, id, owner, limit, path, more - 1)
    ensures ChurnsFor(d, id, owner, limit, path, more)
  {
    var turns: nat :| Churned(d, Turns(d, id, owner, limit, Churn(path), turns), id, owner, path, more - 1);
    var e, next := Turns(d, id, owner, limit, Churn(path), turns), Turns(d, id, owner, limit, Churn(path), turns + 3);
    RoundOfTurns(d, id, owner, limit, Churn(path), turns);
    RoundChurns(d, e, next, id, owner, limit, path, turns, more - 1);
  }

  /** A check that rewrites its scope on every run makes the executor attest again without end: for every
      number there are turns with that many more calls, with no repair used and the loop still going. */
  lemma {:induction false} CallsAreUnbounded(d: Driver, id: string, owner: string, limit: nat, path: Path, more: nat)
    requires d.mode.Advance? && Churning(d.s, id, owner, path)
    ensures ChurnsFor(d, id, owner, limit, path, more)
  {
    if more == 0 {
      ChurnsAtFirst(d, id, owner, limit, path);
    } else {
      CallsAreUnbounded(d, id, owner, limit, path, more - 1);
      ChurnsOn(d, id, owner, limit, path, more);
    }
  }
}
