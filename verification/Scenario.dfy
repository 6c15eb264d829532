/** One delivery from beginning to end: a candidate is begun, implemented, checked, reviewed and verified in
    its own harness. Every guard on the way can be met. */
module Scenario {
  import opened Basics
  import opened Integration
  import opened Records
  import opened Workflows
  import opened Lifecycle
  import opened LifecycleSaves
  import opened LifecycleClaims
  import opened LifecycleCustody
  import opened Advancing
  import opened Composition

  const ACCEPT := CheckSpec("accept", "cargo", None, ["cargo", "test"])
  const BUILD := CheckSpec("build", "cargo", None, ["cargo", "build"])
  const TASK := Task("t", "o", Codex, false, None, None, ["a"], Some([]), [ACCEPT, BUILD], {})
  const ORIGIN: Tree := map["a" := "1"]
  const DONE: Tree := map["a" := "2"]
  const HEAD := Revision("base", [], ORIGIN)
  const AUTHOR := Handoff(ORDINARY_ROUTE, "author")
  const REVIEWER := Handoff(ORDINARY_ROUTE, "reviewer")

  // ----- The record as it grows -----

  const EMPTY: Run :=
    Run(TASK, ORDINARY_ROUTE, HEAD, map[], AwaitingNative, [], [], [], Workflow([], [], []), None, None, None)

  /** The active record with this much history. */
  function Record(workflow: Workflow, checks: seq<Check>, events: seq<Event>): Run {
    EMPTY.(status := Active, handoffs := [AUTHOR], workflow := workflow, checks := checks, events := events)
  }

  const NO_CHECKS := StageEvidence([], [OfMissingCheck, OfMissingCheck], [])
  const ASKED := Request("t", HEAD, Implementation, 1, ORIGIN, NO_CHECKS, false, ORDINARY_ROUTE, Some("author"), [],
                         ["a"], [], None)
  const WRITTEN := StageResult(ASKED, Response(ASKED, DONE, AUTHOR, Completed, None), true, [])
  const ACCEPTED := Check(ACCEPT, 1, DONE, Some(DONE), "env", "", "", true)
  const BUILT := Check(BUILD, 1, DONE, Some(DONE), "env", "", "", true)
  const STARTS := [CheckStart("accept", 1), CheckStart("build", 1)]
  const ALL_CHECKED := StageEvidence([WRITTEN], [OfCheck(ACCEPTED), OfCheck(BUILT)], STARTS)
  const REVIEW: Request :=
    Request("t", HEAD, Review, 2, DONE, ALL_CHECKED, false, ORDINARY_ROUTE, None,
            [OfResult(WRITTEN), OfCheck(ACCEPTED), OfCheck(BUILT)], ["a"], [], None)
  const REVIEWED := StageResult(REVIEW, Response(REVIEW, DONE, REVIEWER, Completed, None), true, [])

  const BOUND := Record(Workflow([], [], []), [], [])
  const IMPLEMENTING := Record(Workflow([ASKED], [], []), [], [])
  const IMPLEMENTED := Record(Workflow([ASKED], [WRITTEN], []), [], [])
  const TESTED := Record(Workflow([ASKED], [WRITTEN], []), [ACCEPTED], [STARTS[0]])
  const CHECKED := Record(Workflow([ASKED], [WRITTEN], []), [ACCEPTED, BUILT], STARTS)
  const REVIEWING := Record(Workflow([ASKED, REVIEW], [WRITTEN], []), [ACCEPTED, BUILT], STARTS)
  const REVIEWED_RUN := Record(Workflow([ASKED, REVIEW], [WRITTEN, REVIEWED], []), [ACCEPTED, BUILT], STARTS)
  const VERIFIED := REVIEWED_RUN.(verdict := Some(true))

  const ACCEPT_LOGS: map<Log, string> := map[Log("t", "accept", 1, Stdout) := "", Log("t", "accept", 1, Stderr) := ""]
  const ALL_LOGS: map<Log, string> :=
    ACCEPT_LOGS[Log("t", "build", 1, Stdout) := ""][Log("t", "build", 1, Stderr) := ""]

  const START := State(Kind.Candidate, [], map[], None, ORIGIN, HEAD, "env", map[], [], {})

  function At(run: Run, files: Tree, logs: map<Log, string>): State {
    START.(names := ["t"], records := map["t" := run], active := Some("t"), files := files, logs := logs)
  }

  lemma Stored(run: Run, files: Tree, logs: map<Log, string>, now: Run)
    requires now.task.id == "t"
    ensures Perform(At(run, files, logs), [Save(now)]) == At(now, files, logs)
  {
    PerformOne(At(run, files, logs), Save(now));
    assert map["t" := run]["t" := now] == map["t" := now];
  }

  lemma NothingOutside(files: Tree)
    requires files.Keys == {"a"}
    ensures Outside(files, Elements(["a"])) == map[]
  {
  }

  lemma Authorized(run: Run, files: Tree, logs: map<Log, string>)
    requires run.task == TASK && run.status == Active && run.baseCommit == HEAD && run.outside == map[]
             && files.Keys == {"a"}
    ensures Authorize(At(run, files, logs), "t", "o", true) == Granted(run, files)
  {
    NothingOutside(files);
  }

  // ----- Begin and bind -----

  lemma Begins()
    ensures BeginPlan(START, TASK) == Plan([Save(EMPTY), Claim("t")], Outcome.Done(EMPTY))
    ensures Perform(START, [Save(EMPTY), Claim("t")]) == At(EMPTY, ORIGIN, map[])
    ensures DistinctChecks(TASK)
  {
    NothingOutside(ORIGIN);
    PerformTwo(START, Save(EMPTY), Claim("t"));
    assert |"accept"| != |"build"|;
    assert map[]["t" := EMPTY] == map["t" := EMPTY];
    assert Dirty(START, ["a"]) == {};
  }

  lemma Binds()
    ensures BindPlan(At(EMPTY, ORIGIN, map[]), "t", "o", AUTHOR).writes == [Save(BOUND)]
  {
    NothingOutside(ORIGIN);
    assert [] + [AUTHOR] == [AUTHOR];
    assert EMPTY.(handoffs := EMPTY.handoffs + [AUTHOR], status := Active) == BOUND;
  }

  // ----- Implementation -----

  lemma NoEvidence(run: Run)
    requires run.task == TASK && run.checks == [] && run.events == [] && run.workflow.results == []
    ensures EvidenceOf(run) == NO_CHECKS
  {
    assert CheckDigests(run) == [OfMissingCheck, OfMissingCheck];
  }

  lemma AsksImplementation()
    ensures NextPlan(At(BOUND, ORIGIN, map[]), "t", "o") == Plan([Save(IMPLEMENTING)], Acted(Native(ASKED)))
  {
    Authorized(BOUND, ORIGIN, map[]);
    NoEvidence(BOUND);
    var prerequisites: seq<Digest>, feedback: seq<Feedback> := [], [];
    assert prerequisites + [] == [] && feedback + [] == [];
    assert NextImplementation(BOUND, ORIGIN) == Ask(BOUND, ORIGIN, Implementation, false, [], []);
    assert NewRequest(BOUND, ORIGIN, Implementation, false, [], []) == ASKED;
    assert [] + [ASKED] == [ASKED];
  }

  lemma SubmitsImplementation()
    ensures SubmitPlan(At(IMPLEMENTING, DONE, map[]), "t", "o", WRITTEN.response).writes == [Save(IMPLEMENTED)]
  {
    Authorized(IMPLEMENTING, DONE, map[]);
    NoEvidence(IMPLEMENTING);
    assert Open(IMPLEMENTING.workflow, ASKED) && ASKED in IMPLEMENTING.workflow.requests;
    assert ResultOf(IMPLEMENTING, DONE, WRITTEN.response) == WRITTEN;
    assert SubmitRefusal(At(IMPLEMENTING, DONE, map[]), IMPLEMENTING, DONE, WRITTEN.response).None?;
    assert [] + [WRITTEN] == [WRITTEN];
    assert WithWorkflow(IMPLEMENTING, Answer(IMPLEMENTING.workflow, WRITTEN)).(verdict := None) == IMPLEMENTED;
  }

  // ----- Checks -----

  const PASSES := Command(true, "", "", DONE, HEAD)

  lemma FirstOfPair<T>(a: T, b: T, p: T -> bool)
    ensures FirstWhere([a, b], p) == if p(a) then Some(a) else if p(b) then Some(b) else None
  {
    assert [a, b][1..] == [b] && [b][1..] == [];
  }

  lemma FindsChecks()
    ensures FindCheck(TASK, "accept") == Some(ACCEPT) && FindCheck(TASK, "build") == Some(BUILD)
  {
    assert |"accept"| != |"build"|;
    FirstOfPair(ACCEPT, BUILD, (check: CheckSpec) => check.id == "accept");
    FirstOfPair(ACCEPT, BUILD, (check: CheckSpec) => check.id == "build");
  }

  lemma StartsCounted()
    ensures StartCount([], "accept") == 0 && StartCount([STARTS[0]], "build") == 0
  {
    assert |"accept"| != |"build"|;
    assert [STARTS[0]][..0] == [];
  }

  lemma Accepts()
    ensures var plan := CheckPlan(At(IMPLEMENTED, DONE, map[]), "t", "o", "accept", PASSES);
            plan.outcome.Done? && Perform(At(IMPLEMENTED, DONE, map[]), plan.writes) == At(TESTED, DONE, ACCEPT_LOGS)
  {
    var s := At(IMPLEMENTED, DONE, map[]);
    Authorized(IMPLEMENTED, DONE, map[]);
    FindsChecks();
    StartsCounted();
    assert CheckOf(s, IMPLEMENTED, ACCEPT, PASSES) == ACCEPTED;
    CheckMeans(s, "t", "o", "accept", PASSES);
    assert CheckedRun(s, IMPLEMENTED, ACCEPT, PASSES) == TESTED;
    assert map["t" := IMPLEMENTED]["t" := TESTED] == map["t" := TESTED];
    assert map[][Log("t", "accept", 1, Stdout) := ""][Log("t", "accept", 1, Stderr) := ""] == ACCEPT_LOGS;
  }

  lemma Builds()
    ensures var plan := CheckPlan(At(TESTED, DONE, ACCEPT_LOGS), "t", "o", "build", PASSES);
            plan.outcome.Done? && Perform(At(TESTED, DONE, ACCEPT_LOGS), plan.writes) == At(CHECKED, DONE, ALL_LOGS)
  {
    var s := At(TESTED, DONE, ACCEPT_LOGS);
    Authorized(TESTED, DONE, ACCEPT_LOGS);
    FindsChecks();
    StartsCounted();
    assert |"accept"| != |"build"|;
    assert CheckOf(s, TESTED, BUILD, PASSES) == BUILT;
    CheckMeans(s, "t", "o", "build", PASSES);
    assert [ACCEPTED] + [BUILT] == [ACCEPTED, BUILT] && [STARTS[0]] + [CheckStart("build", 1)] == STARTS;
    assert CheckedRun(s, TESTED, BUILD, PASSES) == CHECKED;
    assert map["t" := TESTED]["t" := CHECKED] == map["t" := CHECKED];
  }

  // ----- Review -----

  lemma LatestOfEach(run: Run)
    requires run.checks == [ACCEPTED, BUILT] && run.events == STARTS
    ensures LatestCheck(run.checks, "accept") == Some(ACCEPTED) && LatestCheck(run.checks, "build") == Some(BUILT)
    ensures LatestStart(run.events, "accept") == Some(STARTS[0]) && LatestStart(run.events, "build") == Some(STARTS[1])
    ensures Starts(run.events) == STARTS
  {
    assert |"accept"| != |"build"|;
    LastWhereSnoc([ACCEPTED], BUILT, (check: Check) => check.spec.id == "accept");
    LastWhereSnoc([], ACCEPTED, (check: Check) => check.spec.id == "accept");
    LastWhereSnoc([ACCEPTED], BUILT, (check: Check) => check.spec.id == "build");
    LastWhereSnoc([STARTS[0]], STARTS[1], (event: Event) => event.CheckStart? && event.id == "accept");
    LastWhereSnoc([], STARTS[0], (event: Event) => event.CheckStart? && event.id == "accept");
    LastWhereSnoc([STARTS[0]], STARTS[1], (event: Event) => event.CheckStart? && event.id == "build");
    assert [ACCEPTED] + [BUILT] == [ACCEPTED, BUILT] && [STARTS[0]] + [STARTS[1]] == STARTS;
    assert [] + [ACCEPTED] == [ACCEPTED] && [] + [STARTS[0]] == [STARTS[0]];
    assert STARTS[..1] == [STARTS[0]] && [STARTS[0]][..0] == [];
    assert Starts([STARTS[0]]) == [STARTS[0]];
  }

  lemma AllValid(run: Run)
    requires run.task == TASK && run.checks == [ACCEPTED, BUILT] && run.events == STARTS
    ensures CheckDigests(run) == [OfCheck(ACCEPTED), OfCheck(BUILT)]
    ensures forall i | 0 <= i < 2 :: CheckValid(run, TASK.checks[i].id, DONE, "env", ALL_LOGS)
    ensures ValidChecks(run, DONE, "env", ALL_LOGS) == {"accept", "build"}
  {
    LatestOfEach(run);
    assert CheckDigests(run) == [OfCheck(ACCEPTED), OfCheck(BUILT)];
    assert LogsIntact("t", ACCEPTED, ALL_LOGS) && LogsIntact("t", BUILT, ALL_LOGS);
    assert CheckValid(run, TASK.checks[0].id, DONE, "env", ALL_LOGS)
           && CheckValid(run, TASK.checks[1].id, DONE, "env", ALL_LOGS);
  }

  lemma ImplementationStands()
    ensures LastImplementation([WRITTEN]) == Some(WRITTEN) && LastSettled([WRITTEN]) == Some(WRITTEN)
    ensures LastImplementation([WRITTEN, REVIEWED]) == Some(WRITTEN)
  {
    LastWhereSnoc([WRITTEN], REVIEWED, (result: StageResult) => IsImplementation(result));
    assert [WRITTEN] + [REVIEWED] == [WRITTEN, REVIEWED];
  }

  lemma NothingOpen(w: Workflow)
    requires w.requests == [ASKED] && w.results == [WRITTEN]
    ensures NothingPending(w) && Pending(w).None?
  {
    assert w.results[0].request == ASKED;
    assert w.requests[1..] == [];
  }

  lemma AsksReview()
    ensures NextPlan(At(CHECKED, DONE, ALL_LOGS), "t", "o") == Plan([Save(REVIEWING)], Acted(Native(REVIEW)))
  {
    Authorized(CHECKED, DONE, ALL_LOGS);
    AllValid(CHECKED);
    LatestOfEach(CHECKED);
    ImplementationStands();
    NothingOpen(CHECKED.workflow);
    FirstOfTwo({"accept", "build"});
    assert ReviewPrerequisites(CHECKED, WRITTEN) == REVIEW.prerequisites;
    assert NewRequest(CHECKED, DONE, Review, false, REVIEW.prerequisites, []) == REVIEW;
    assert [ASKED] + [REVIEW] == [ASKED, REVIEW];
    assert NextAttested(CHECKED, DONE, {"accept", "build"}, WRITTEN)
        == Ask(CHECKED, DONE, Review, false, REVIEW.prerequisites, []);
    ChecksStand(REVIEWING);
  }

  lemma FirstOfTwo(valid: set<string>)
    requires "accept" in valid && "build" in valid
    ensures FirstMissing(TASK, valid).None?
  {
    FirstOfPair(ACCEPT, BUILD, (check: CheckSpec) => check.id !in valid);
  }

  lemma ChecksStand(run: Run)
    requires run.task == TASK && run.checks == [ACCEPTED, BUILT]
    ensures forall i | 0 <= i < |run.checks| ::
              run.checks[i].environment == "env" && LogsIntact(run.task.id, run.checks[i], ALL_LOGS)
  {
  }

  lemma ReviewIsOpen()
    ensures Open(REVIEWING.workflow, REVIEW) && REVIEW in REVIEWING.workflow.requests
  {
    assert REVIEW.attempt != ASKED.attempt;
  }

  lemma ReviewGranted()
    ensures ReviewRefusal(REVIEWING, DONE, REVIEWED.response, {"accept", "build"}).None?
  {
    AllValid(REVIEWING);
    ImplementationStands();
    assert |"author"| != |"reviewer"| && |"accept"| != |"build"|;
    assert ReviewPrerequisites(REVIEWING, WRITTEN) == REVIEW.prerequisites;
    assert |{"accept", "build"}| == 2;
  }

  lemma ReviewEvidence()
    ensures EvidenceOf(REVIEWING) == ALL_CHECKED
  {
    AllValid(REVIEWING);
    LatestOfEach(REVIEWING);
  }

  lemma ReviewAllowed()
    ensures SubmitRefusal(At(REVIEWING, DONE, ALL_LOGS), REVIEWING, DONE, REVIEWED.response).None?
  {
    ReviewIsOpen();
    ReviewEvidence();
    ReviewGranted();
    AllValid(REVIEWING);
    ChecksStand(REVIEWING);
  }

  lemma SubmitsReview()
    ensures SubmitPlan(At(REVIEWING, DONE, ALL_LOGS), "t", "o", REVIEWED.response).writes == [Save(REVIEWED_RUN)]
  {
    Authorized(REVIEWING, DONE, ALL_LOGS);
    ReviewAllowed();
    assert ResultOf(REVIEWING, DONE, REVIEWED.response) == REVIEWED;
    assert [WRITTEN] + [REVIEWED] == [WRITTEN, REVIEWED];
    assert WithWorkflow(REVIEWING, Answer(REVIEWING.workflow, REVIEWED)).(verdict := None) == REVIEWED_RUN;
  }

  lemma IsReady(run: Run)
    requires run.task == TASK && run.checks == [ACCEPTED, BUILT] && run.events == STARTS && run.integration.None?
    requires run.workflow == REVIEWED_RUN.workflow
    ensures DirectReady(run, DONE)
  {
    AllValid(run);
    ImplementationStands();
    assert run.workflow.results[0].request == ASKED && run.workflow.results[1].request == REVIEW;
    assert ReviewPrerequisites(run, WRITTEN) == REVIEW.prerequisites;
  }

  lemma Verifies()
    ensures VerifyPlan(At(REVIEWED_RUN, DONE, ALL_LOGS), "t", "o").writes == [Save(VERIFIED)]
  {
    Authorized(REVIEWED_RUN, DONE, ALL_LOGS);
    AllValid(REVIEWED_RUN);
    IsReady(REVIEWED_RUN);
  }

  // ----- The whole run -----

  const WRITING: seq<Happening> := [
    Operate(BeginRun(TASK), 2),
    Operate(BindHandoff("t", "o", AUTHOR), 1),
    Operate(NextStep("t", "o"), 1),
    Edit(DONE),
    Operate(SubmitResponse("t", "o", WRITTEN.response), 1)]

  const ACCEPTING: seq<Happening> := [
    Operate(RunDeclaredCheck("t", "o", "accept", PASSES), 5),
    Operate(RunDeclaredCheck("t", "o", "build", PASSES), 5),
    Operate(NextStep("t", "o"), 1),
    Operate(SubmitResponse("t", "o", REVIEWED.response), 1),
    Operate(VerifyRun("t", "o"), 1)]

  /** An operation that is not cut. */
  lemma Operates(s: State, op: Operation, cut: nat, writes: seq<Write>, t: State)
    requires PlanOf(s, op).writes == writes && |writes| <= cut && Perform(s, writes) == t
    ensures After(s, Operate(op, cut)) == t
  {
    CutNothing(writes, cut);
  }

  lemma CutNothing(writes: seq<Write>, cut: nat)
    requires |writes| <= cut
    ensures Cut(writes, cut) == writes
  {
  }

  /** The states between the happenings of a run. */
  lemma {:induction false} PassesThrough(trace: seq<Happening>, states: seq<State>)
    requires |states| == |trace| + 1
    requires forall i | 0 <= i < |trace| :: After(states[i], trace[i]) == states[i + 1]
    ensures RunOf(states[0], trace) == states[|trace|]
  {
    if trace != [] {
      var front := trace[..|trace| - 1];
      assert forall i | 0 <= i < |front| :: front[i] == trace[i];
      PassesThrough(front, states[..|trace|]);
    }
  }

  lemma Step0()
    ensures After(START, Operate(BeginRun(TASK), 2)) == At(EMPTY, ORIGIN, map[])
  {
    Begins();
    Operates(START, BeginRun(TASK), 2, [Save(EMPTY), Claim("t")],
             At(EMPTY, ORIGIN, map[]));
  }

  lemma Step1()
    ensures After(At(EMPTY, ORIGIN, map[]), Operate(BindHandoff("t", "o", AUTHOR), 1)) == At(BOUND, ORIGIN, map[])
  {
    Binds();
    Stored(EMPTY, ORIGIN, map[], BOUND);
    Operates(At(EMPTY, ORIGIN, map[]), BindHandoff("t", "o", AUTHOR), 1, [Save(BOUND)],
             At(BOUND, ORIGIN, map[]));
  }

  lemma Step2()
    ensures After(At(BOUND, ORIGIN, map[]), Operate(NextStep("t", "o"), 1)) == At(IMPLEMENTING, ORIGIN, map[])
  {
    AsksImplementation();
    Stored(BOUND, ORIGIN, map[], IMPLEMENTING);
    Operates(At(BOUND, ORIGIN, map[]), NextStep("t", "o"), 1, [Save(IMPLEMENTING)],
             At(IMPLEMENTING, ORIGIN, map[]));
  }

  lemma Step4()
    ensures After(At(IMPLEMENTING, DONE, map[]), Operate(SubmitResponse("t", "o", WRITTEN.response), 1))
            == At(IMPLEMENTED, DONE, map[])
  {
    SubmitsImplementation();
    Stored(IMPLEMENTING, DONE, map[], IMPLEMENTED);
    Operates(At(IMPLEMENTING, DONE, map[]), SubmitResponse("t", "o", WRITTEN.response), 1, [Save(IMPLEMENTED)],
             At(IMPLEMENTED, DONE, map[]));
  }

  lemma CheckWrites(s: State, id: string, owner: string, checkId: string, command: Command)
    ensures |CheckPlan(s, id, owner, checkId, command).writes| <= 5
  {
  }

  lemma Step5()
    ensures After(At(IMPLEMENTED, DONE, map[]), Operate(RunDeclaredCheck("t", "o", "accept", PASSES), 5))
            == At(TESTED, DONE, ACCEPT_LOGS)
  {
    Accepts();
    CheckWrites(At(IMPLEMENTED, DONE, map[]), "t", "o", "accept", PASSES);
    Operates(At(IMPLEMENTED, DONE, map[]), RunDeclaredCheck("t", "o", "accept", PASSES), 5,
             CheckPlan(At(IMPLEMENTED, DONE, map[]), "t", "o", "accept", PASSES).writes,
             At(TESTED, DONE, ACCEPT_LOGS));
  }

  lemma Step6()
    ensures After(At(TESTED, DONE, ACCEPT_LOGS), Operate(RunDeclaredCheck("t", "o", "build", PASSES), 5))
            == At(CHECKED, DONE, ALL_LOGS)
  {
    Builds();
    CheckWrites(At(TESTED, DONE, ACCEPT_LOGS), "t", "o", "build", PASSES);
    Operates(At(TESTED, DONE, ACCEPT_LOGS), RunDeclaredCheck("t", "o", "build", PASSES), 5,
             CheckPlan(At(TESTED, DONE, ACCEPT_LOGS), "t", "o", "build", PASSES).writes,
             At(CHECKED, DONE, ALL_LOGS));
  }

  lemma Step7()
    ensures After(At(CHECKED, DONE, ALL_LOGS), Operate(NextStep("t", "o"), 1)) == At(REVIEWING, DONE, ALL_LOGS)
  {
    AsksReview();
    Stored(CHECKED, DONE, ALL_LOGS, REVIEWING);
    Operates(At(CHECKED, DONE, ALL_LOGS), NextStep("t", "o"), 1, [Save(REVIEWING)],
             At(REVIEWING, DONE, ALL_LOGS));
  }

  lemma Step8()
    ensures After(At(REVIEWING, DONE, ALL_LOGS), Operate(SubmitResponse("t", "o", REVIEWED.response), 1))
            == At(REVIEWED_RUN, DONE, ALL_LOGS)
  {
    SubmitsReview();
    Stored(REVIEWING, DONE, ALL_LOGS, REVIEWED_RUN);
    Operates(At(REVIEWING, DONE, ALL_LOGS), SubmitResponse("t", "o", REVIEWED.response), 1, [Save(REVIEWED_RUN)],
             At(REVIEWED_RUN, DONE, ALL_LOGS));
  }

  lemma Step9()
    ensures After(At(REVIEWED_RUN, DONE, ALL_LOGS), Operate(VerifyRun("t", "o"), 1)) == At(VERIFIED, DONE, ALL_LOGS)
  {
    Verifies();
    Stored(REVIEWED_RUN, DONE, ALL_LOGS, VERIFIED);
    Operates(At(REVIEWED_RUN, DONE, ALL_LOGS), VerifyRun("t", "o"), 1, [Save(VERIFIED)],
             At(VERIFIED, DONE, ALL_LOGS));
  }

  /** Five steps, one after another. */
  lemma FiveSteps(
    h0: Happening, h1: Happening, h2: Happening, h3: Happening, h4: Happening,
    s0: State, s1: State, s2: State, s3: State, s4: State, s5: State)
    requires After(s0, h0) == s1 && After(s1, h1) == s2 && After(s2, h2) == s3 && After(s3, h3) == s4
             && After(s4, h4) == s5
    ensures RunOf(s0, [h0, h1, h2, h3, h4]) == s5
  {
    PassesThrough([h0, h1, h2, h3, h4], [s0, s1, s2, s3, s4, s5]);
  }

  lemma Snoc<T>(first: seq<T>, second: seq<T>)
    requires second != []
    ensures var joined := first + second;
            joined != [] && joined[..|joined| - 1] == first + second[..|second| - 1]
            && joined[|joined| - 1] == second[|second| - 1]
  {
  }

  lemma NoneAfter<T>(first: seq<T>)
    ensures first + [] == first
  {
  }

  lemma {:induction false} RunAppend(s: State, first: seq<Happening>, second: seq<Happening>)
    ensures RunOf(s, first + second) == RunOf(RunOf(s, first), second)
  {
    if second == [] {
      NoneAfter(first);
    } else {
      RunAppend(s, first, second[..|second| - 1]);
      Snoc(first, second);
    }
  }

  /** The implementation is written and attested. */
  lemma Writes()
    ensures RunOf(START, WRITING) == At(IMPLEMENTED, DONE, map[])
  {
    Step0();
    Step1();
    Step2();
    Step4();
    FiveSteps(
      Operate(BeginRun(TASK), 2), Operate(BindHandoff("t", "o", AUTHOR), 1), Operate(NextStep("t", "o"), 1), Edit(DONE),
      Operate(SubmitResponse("t", "o", WRITTEN.response), 1),
      START, At(EMPTY, ORIGIN, map[]), At(BOUND, ORIGIN, map[]), At(IMPLEMENTING, ORIGIN, map[]),
        At(IMPLEMENTING, DONE, map[]),
      At(IMPLEMENTED, DONE, map[]));
  }

  /** It is checked, reviewed and verified. */
  lemma IsAccepted()
    ensures RunOf(At(IMPLEMENTED, DONE, map[]), ACCEPTING) == At(VERIFIED, DONE, ALL_LOGS)
  {
    Step5();
    Step6();
    Step7();
    Step8();
    Step9();
    FiveSteps(
      Operate(RunDeclaredCheck("t", "o", "accept", PASSES), 5), Operate(RunDeclaredCheck("t", "o", "build", PASSES), 5),
      Operate(NextStep("t", "o"), 1), Operate(SubmitResponse("t", "o", REVIEWED.response), 1),
        Operate(VerifyRun("t", "o"), 1),
      At(IMPLEMENTED, DONE, map[]), At(TESTED, DONE, ACCEPT_LOGS), At(CHECKED, DONE, ALL_LOGS),
        At(REVIEWING, DONE, ALL_LOGS),
      At(REVIEWED_RUN, DONE, ALL_LOGS), At(VERIFIED, DONE, ALL_LOGS));
  }

  lemma WritingInCandidate()
    ensures forall i | 0 <= i < |WRITING| :: InCandidate(WRITING[i])
  {
    Begins();
  }

  lemma AcceptingInCandidate()
    ensures forall i | 0 <= i < |ACCEPTING| :: InCandidate(ACCEPTING[i])
  {
  }

  lemma Joined(first: seq<Happening>, second: seq<Happening>)
    requires forall i | 0 <= i < |first| :: InCandidate(first[i])
    requires forall i | 0 <= i < |second| :: InCandidate(second[i])
    ensures forall i | 0 <= i < |first + second| :: InCandidate((first + second)[i])
  {
  }

  lemma RecordedIn(s: State, trace: seq<Happening>, run: Run)
    requires Initial(s) && s.kind == Kind.Candidate && forall i | 0 <= i < |trace| :: InCandidate(trace[i])
    requires run.task.id in RunOf(s, trace).records && RunOf(s, trace).records[run.task.id] == run
    ensures Authored(run)
  {
  }

  /** The verified run is the record of a candidate harness that began with nothing. */
  lemma VerifiedIsAuthored()
    ensures Authored(VERIFIED)
  {
    WritingInCandidate();
    AcceptingInCandidate();
    Joined(WRITING, ACCEPTING);
    Writes();
    IsAccepted();
    RunAppend(START, WRITING, ACCEPTING);
    RecordedIn(START, WRITING + ACCEPTING, VERIFIED);
  }

  /** The verified candidate passes the validation of an integration. */
  lemma VerifiedIsValid()
    ensures CandidateValid(VERIFIED, DONE, "env", ALL_LOGS)
  {
    AllValid(VERIFIED);
    LatestOfEach(VERIFIED);
    IsReady(VERIFIED);
    assert |"author"| != |"reviewer"|;
  }
}
