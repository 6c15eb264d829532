/** Runs from an initial state on which a law with a condition fails, where the condition does not hold. */
module Counterexamples {
  import opened Basics
  import opened Integration
  import opened Records
  import opened WorkflowLaws
  import Workflows
  import opened Lifecycle
  import opened LifecycleSaves
  import opened LifecycleClaims
  import opened LifecycleCustody
  import opened Advancing
  import opened Composition
  import opened Scenario
  import Reservations
  import Paths
  import Runner
  import RunnerChurn
  import RunnerToil

  // ----- Executor calls without bound -----

  lemma ImplementedAttested()
    ensures Attested(IMPLEMENTED, DONE) && Bookkept(IMPLEMENTED.workflow)
  {
    ImplementationStands();
    NothingOpen(IMPLEMENTED.workflow);
  }

  lemma ImplementedDue()
    ensures RunnerChurn.CheckDue(At(IMPLEMENTED, DONE, map[]), IMPLEMENTED, "o", "a")
  {
    NothingOutside(DONE);
  }

  lemma WritingIsPossible()
    ensures AllPossible(WRITING)
  {
    WritingInCandidate();
  }

  /** A candidate harness that began with nothing reaches a run whose executor calls have no bound, when its
      first check rewrites the scoped file each time it runs. */
  lemma UnboundedCallsAreReachable(limit: nat, more: nat)
    ensures var s := RunOf(START, WRITING);
            && Initial(START) && AllPossible(WRITING) && Runner.Runnable(s, "t")
            && RunnerChurn.ChurnsFor(Runner.Begun(s, false), "t", "o", limit, "a", more)
  {
    Writes();
    WritingIsPossible();
    EveryRunIsDurable(START, WRITING);
    ImplementedAttested();
    ImplementedDue();
    RunnerChurn.CallsAreUnbounded(Runner.Begun(RunOf(START, WRITING), false), "t", "o", limit, "a", more);
  }

  // ----- Executor calls up to the bound -----

  const API_TASK := TASK.(host := OpenRouter)
  const API_AUTHOR := Handoff(Workflows.API_ROUTE, "first")
  const API_EMPTY := EMPTY.(task := API_TASK, route := Workflows.API_ROUTE)
  const API_BOUND := API_EMPTY.(handoffs := [API_AUTHOR], status := Active)
  const BINDING: seq<Happening> :=
    [Operate(BeginRun(API_TASK), 2), Operate(BindHandoff("t", "o", API_AUTHOR), 1)]

  lemma ApiBegins()
    ensures After(START, BINDING[0]) == At(API_EMPTY, ORIGIN, map[])
  {
    NothingOutside(ORIGIN);
    PerformTwo(START, Save(API_EMPTY), Claim("t"));
    assert map[]["t" := API_EMPTY] == map["t" := API_EMPTY] && Dirty(START, ["a"]) == {};
    assert BeginPlan(START, API_TASK).writes == [Save(API_EMPTY), Claim("t")];
    Operates(START, BeginRun(API_TASK), 2, [Save(API_EMPTY), Claim("t")], At(API_EMPTY, ORIGIN, map[]));
  }

  lemma ApiBinds()
    ensures After(At(API_EMPTY, ORIGIN, map[]), BINDING[1]) == At(API_BOUND, ORIGIN, map[])
  {
    NothingOutside(ORIGIN);
    assert [] + [API_AUTHOR] == [API_AUTHOR];
    assert BindPlan(At(API_EMPTY, ORIGIN, map[]), "t", "o", API_AUTHOR).writes == [Save(API_BOUND)];
    Stored(API_EMPTY, ORIGIN, map[], API_BOUND);
    Operates(At(API_EMPTY, ORIGIN, map[]), BindHandoff("t", "o", API_AUTHOR), 1, [Save(API_BOUND)],
             At(API_BOUND, ORIGIN, map[]));
  }

  lemma ApiIsBound()
    ensures AllPossible(BINDING) && RunOf(START, BINDING) == At(API_BOUND, ORIGIN, map[])
  {
    ApiBegins();
    ApiBinds();
    assert |"accept"| != |"build"|;
    PassesThrough(BINDING, [START, At(API_EMPTY, ORIGIN, map[]), At(API_BOUND, ORIGIN, map[])]);
  }

  lemma ApiIsFree()
    ensures RunnerToil.Free(At(API_BOUND, ORIGIN, map[]), API_BOUND, "o", "a")
  {
    NothingOutside(ORIGIN);
    assert |"first"| != |"reviewer"|;
  }

  /** A candidate harness that began with nothing reaches a run that makes exactly 3 * limit + 6 executor calls, for
      every limit, with no check that changes the source. */
  lemma BoundIsReached(limit: nat)
    ensures Initial(START) && AllPossible(BINDING) && Runner.Runnable(RunOf(START, BINDING), "t")
    ensures RunnerToil.Attains(RunnerToil.Site("t", "o", limit, "a"), Runner.Begun(RunOf(START, BINDING), true),
                               3 * limit + 6)
  {
    ApiIsBound();
    EveryRunIsDurable(START, BINDING);
    ApiIsFree();
    assert |"first"| != |"author"|;
    RunnerToil.BoundIsAttained(RunOf(START, BINDING), RunnerToil.Site("t", "o", limit, "a"));
  }

  // ----- A claim taken again beside a conflicting reservation -----

  const CANONICAL := State(Main, [], map[], None, ORIGIN, HEAD, "env", map[], [], {})
  const CHECKOUT := Checkout(Custody(ORIGIN, HEAD, ["a"], {}, Some([]), true, {}), Some(VERIFIED), DONE, ALL_LOGS,
                             false)
  const INPUT := IntegrationInput("t", "o", VERIFIED, None)
  const COHORT := Reservations.Reservation("other", {"a"}, None, {}, true, None)

  /** An integration is cut after its first write; a cohort reserves the same path; it is integrated again. */
  const LOSING: seq<Happening> := [
    Operate(IntegrateCandidate(INPUT, CHECKOUT), 1), AdmitPool([COHORT]),
      Operate(IntegrateCandidate(INPUT, CHECKOUT), 1)]

  lemma MergesDone()
    ensures Prepare(ORIGIN, Canonical(ORIGIN, []), MergeCandidate(CHECKOUT, VERIFIED), false) == Success(DONE)
  {
    var c := MergeCandidate(CHECKOUT, VERIFIED);
    assert Scope(c) == {"a"} && Merge(ORIGIN, {"a"}, DONE) == DONE;
    assert ORIGIN["a"] == "1" && DONE["a"] == "2";
  }

  lemma NothingReserved()
    ensures Reservations.Active([], {}) == {}
  {
  }

  lemma Prepares()
    ensures PrepareIntegration(CANONICAL, INPUT, CHECKOUT)
            == Ready(Prepared(CANONICAL, INPUT, CHECKOUT, VERIFIED, DONE))
  {
    VerifiedIsValid();
    MergesDone();
    NothingReserved();
    NothingOutside(DONE);
    NothingOutside(ORIGIN);
    assert Since([], map[], HEAD, HEAD) == [];
    assert IsAncestor(HEAD, HEAD);
    assert LogsPresent(VERIFIED, ALL_LOGS);
  }

  const PREPARED := Prepared(CANONICAL, INPUT, CHECKOUT, VERIFIED, DONE)

  lemma IntegratesFirst()
    ensures |IntegratePlan(CANONICAL, INPUT, CHECKOUT).writes| > 0
    ensures IntegratePlan(CANONICAL, INPUT, CHECKOUT).writes[0] == Save(PREPARED)
  {
    Prepares();
    AdoptsFirst(CANONICAL, PREPARED, INPUT, CHECKOUT);
  }

  lemma AdoptsFirst(s: State, run: Run, input: IntegrationInput, c: Checkout)
    requires run.integration.Some? && run.task.owner == input.owner && run.status == Active && run.task.id !in s.records
    ensures var writes := AdoptPlan(s, run, input, c).writes;
            |writes| > 0 && writes[0] == Save(run)
  {
    ApplyShape(s, run, input, c, TakenUp(s, run));
    assert TakenUp(s, run)[0] == Save(run);
  }

  /** Saved, and not yet claimed. */
  const UNCLAIMED := CANONICAL.(names := ["t"], records := map["t" := PREPARED])

  lemma CutAfterOne(s: State, op: Operation, plan: Plan, w: Write)
    requires plan == PlanOf(s, op) && |plan.writes| > 0 && plan.writes[0] == w
    ensures After(s, Operate(op, 1)) == Put(s, w)
  {
    FirstOnly(plan.writes);
    PerformOne(s, w);
  }

  lemma FirstOnly(writes: seq<Write>)
    requires |writes| > 0
    ensures Cut(writes, 1) == [writes[0]]
  {
  }

  lemma IntegrateIsPlanned(s: State, input: IntegrationInput, c: Checkout, plan: Plan)
    requires plan == IntegratePlan(s, input, c)
    ensures PlanOf(s, IntegrateCandidate(input, c)) == plan
  {
  }

  lemma SavedUnclaimed()
    ensures Put(CANONICAL, Save(PREPARED)) == UNCLAIMED
  {
    assert map[]["t" := PREPARED] == map["t" := PREPARED];
  }

  lemma CutAfterSave()
    ensures After(CANONICAL, Operate(IntegrateCandidate(INPUT, CHECKOUT), 1)) == UNCLAIMED
  {
    var plan := IntegratePlan(CANONICAL, INPUT, CHECKOUT);
    IntegratesFirst();
    IntegrateIsPlanned(CANONICAL, INPUT, CHECKOUT, plan);
    CutAfterOne(CANONICAL, IntegrateCandidate(INPUT, CHECKOUT), plan, Save(PREPARED));
    SavedUnclaimed();
  }

  lemma CohortAdmitted()
    ensures After(UNCLAIMED, AdmitPool([COHORT])) == UNCLAIMED.(pools := [{COHORT}])
  {
    NothingReserved();
    assert Elements([COHORT]) == {COHORT};
  }

  lemma CohortMeetsScope()
    ensures !SafeFor([{COHORT}], PREPARED)
  {
    assert Paths.Overlaps("a", "a") && "a" in Elements(["a"]);
    assert Paths.Intersects(COHORT.mutationPaths, Elements(["a"]));
    assert COHORT in [{COHORT}][0] && !Clear(COHORT, PREPARED);
  }

  lemma LosingIsComposed()
    ensures forall i | 0 <= i < |LOSING| :: Composed(LOSING[i])
  {
    VerifiedIsAuthored();
  }

  lemma LosingStates()
    ensures RunOf(CANONICAL, LOSING[..2]) == UNCLAIMED.(pools := [{COHORT}])
    ensures RunOf(CANONICAL, LOSING) == After(RunOf(CANONICAL, LOSING[..2]), LOSING[2])
  {
    CutAfterSave();
    CohortAdmitted();
    assert LOSING[..2] == [LOSING[0], LOSING[1]] && LOSING[..2][..1] == [LOSING[0]] && LOSING[..2][..1][..0] == [];
    assert RunOf(CANONICAL, [LOSING[0]]) == After(CANONICAL, LOSING[0]);
  }

  lemma Retakes()
    ensures RetakesClaim(UNCLAIMED.(pools := [{COHORT}]), IntegrateCandidate(INPUT, CHECKOUT))
    ensures !TakesSafely(UNCLAIMED.(pools := [{COHORT}]), LOSING[2])
  {
    CohortMeetsScope();
  }

  /** From an initial canonical state, with a candidate authored in its own harness, custody is lost: the
      integration ends claimed beside a reservation that mutates its scope. */
  lemma CustodyIsLost()
    ensures Initial(CANONICAL) && AllPossible(LOSING)
    ensures !CustodySafe(RunOf(CANONICAL, LOSING))
    ensures RunOf(CANONICAL, LOSING).active == Some("t")
  {
    LosingIsComposed();
    ComposedIsPossible(LOSING);
    LosingStates();
    Retakes();
    var s := RunOf(CANONICAL, LOSING[..2]);
    assert forall i | 0 <= i < 2 :: LOSING[..2][i] == LOSING[i];
    EveryRunIsDurable(CANONICAL, LOSING[..2]);
    RetakenIsClaimed(s, IntegrateCandidate(INPUT, CHECKOUT), 1);
    CohortMeetsScope();
    UnsafeClaimIsUnsafe(s, After(s, LOSING[2]), "t");
  }
}
