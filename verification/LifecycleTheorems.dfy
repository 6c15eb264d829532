/** What the lifecycle promises over every run of operations, crashes and interference. */
module LifecycleTheorems {
  import opened Basics
  import opened Integration
  import opened Records
  import opened Workflows
  import opened WorkflowLaws
  import opened Prerequisites
  import opened Reservations
  import opened Lifecycle
  import opened LifecycleInvariant
  import opened LifecycleSaves
  import opened LifecycleClaims
  import opened LifecycleCustody

  lemma RecordIsSound(s: State, trace: seq<Happening>, id: string)
    requires Initial(s) && AllPossible(trace) && id in RunOf(s, trace).records
    ensures Sound(RunOf(s, trace).records[id]) && RunOf(s, trace).records[id].task.id == id
  {
    EveryRunIsDurable(s, trace);
    assert Soundness()(RecordAt(RunOf(s, trace), id));
  }

  // ----- Books -----

  /** In every reachable workflow attempts count the requests, ids are distinct, at most one request is
      neither answered nor invalidated, and none is both. */
  lemma EveryWorkflowKeepsItsBooks(s: State, trace: seq<Happening>, id: string)
    requires Initial(s) && AllPossible(trace) && id in RunOf(s, trace).records
    ensures var w := RunOf(s, trace).records[id].workflow;
            && (forall i | 0 <= i < |w.requests| :: w.requests[i].attempt == i + 1)
            && (forall i, j | 0 <= i < j < |w.requests| :: w.requests[i] != w.requests[j])
            && (forall i, j | 0 <= i < |w.requests| && 0 <= j < |w.requests| && Open(w, w.requests[i])
                && Open(w, w.requests[j]) :: i == j)
            && (forall i | 0 <= i < |w.requests| :: !(Answered(w, w.requests[i]) && w.requests[i] in w.invalidated))
  {
    RecordIsSound(s, trace, id);
    var run := RunOf(s, trace).records[id];
    SoundIsBookkept(run);
    forall i: nat, j: nat | i < |run.workflow.requests| && j < |run.workflow.requests|
      ensures BooksAgree(run.workflow, i, j)
    {
      BooksIdentifyRequests(run.workflow, i, j);
    }
    BooksOf(run.workflow);
  }

  lemma SoundIsBookkept(run: Run)
    requires Sound(run)
    ensures Bookkept(run.workflow)
  {
  }

  ghost predicate BooksAgree(w: Workflow, i: nat, j: nat)
    requires i < |w.requests| && j < |w.requests|
  {
    && (w.requests[i] == w.requests[j] ==> i == j)
    && (Open(w, w.requests[i]) && Open(w, w.requests[j]) ==> i == j)
    && !(Answered(w, w.requests[i]) && w.requests[i] in w.invalidated)
  }

  lemma BooksOf(w: Workflow)
    requires Bookkept(w) && forall i: nat, j: nat | i < |w.requests| && j < |w.requests| :: BooksAgree(w, i, j)
    ensures forall i, j | 0 <= i < j < |w.requests| :: w.requests[i] != w.requests[j]
    ensures forall i, j | 0 <= i < |w.requests| && 0 <= j < |w.requests| && Open(w, w.requests[i])
            && Open(w, w.requests[j]) :: i == j
    ensures forall i | 0 <= i < |w.requests| :: !(Answered(w, w.requests[i]) && w.requests[i] in w.invalidated)
  {
    forall i, j | 0 <= i < j < |w.requests|
      ensures w.requests[i] != w.requests[j]
    {
      assert BooksAgree(w, i, j);
    }
    forall i, j | 0 <= i < |w.requests| && 0 <= j < |w.requests| && Open(w, w.requests[i]) && Open(w, w.requests[j])
      ensures i == j
    {
      assert BooksAgree(w, i, j);
    }
    forall i | 0 <= i < |w.requests|
      ensures !(Answered(w, w.requests[i]) && w.requests[i] in w.invalidated)
    {
      assert BooksAgree(w, i, i);
    }
  }

  // ----- Completion -----

  /** The executor of the review wrote none of the implementations. */
  ghost predicate ReviewerIsIndependent(results: seq<StageResult>, review: StageResult) {
    forall i | 0 <= i < |results| && results[i].request.stage == Implementation ::
      results[i].response.native.executor != review.response.native.executor
  }

  /** A run authored here: the last non-transport implementation was accepted for the source, and the last
      result is an accepted, independent review asked for and given there, citing exactly it and the checks. */
  ghost predicate ReviewedDirectly(run: Run, source: Tree) {
    var results := run.workflow.results;
    && |results| > 0
    && var implementation, review := LastImplementation(results), results[|results| - 1];
       && implementation.Some? && implementation.value.accepted && implementation.value.response.source == source
       && review.request.stage == Review && review.accepted
       && review.request.source == source && review.response.source == source
       && review.request.prerequisites == [OfResult(implementation.value)] + CheckDigests(run)
       && ReviewerIsIndependent(results, review)
  }

  /** An integrated run: the candidate was reviewed directly, and when inputs around it changed or the owner
      pinned a revalidation, a fresh executor also reviewed the merged source, citing the candidate and the new
      checks. */
  ghost predicate ReviewedOnIntegration(run: Run, source: Tree)
    requires run.integration.Some?
  {
    var e, results := run.integration.value, run.workflow.results;
    && source == e.sourceAfter && ReviewedDirectly(e.original, e.candidateSource)
    && (ReviewNeeded(run) ==>
          && |e.original.workflow.results| < |results|
          && var review := results[|results| - 1];
             && review.request.stage == Review && review.accepted
             && review.request.source == source && review.response.source == source
             && review.request.prerequisites == [OfRun(e.original)] + CheckDigests(run)
             && !HasExecutor(run.handoffs, review.response.native.executor)
             && ReviewerIsIndependent(results, review))
  }

  lemma DirectReadyIsReviewed(run: Run, source: Tree)
    requires DirectHistory(run) && DirectReady(run, source)
    ensures ReviewedDirectly(run, source)
  {
    var results := run.workflow.results;
    var last := |results| - 1;
    var review := results[last];
    assert ReviewGrounded(run, last);
    forall i | 0 <= i < |results| && results[i].request.stage == Implementation
      ensures results[i].response.native.executor != review.response.native.executor
    {
      assert i < last;
    }
  }

  lemma AppendedReviewerIsIndependent(run: Run, review: StageResult)
    requires run.integration.Some? && WorkflowIntact(run) && ReviewNeeded(run)
    requires !AnsweredBy(run.integration.value.original.workflow.results, review.response.native.executor)
    ensures ReviewerIsIndependent(run.workflow.results, review)
  {
    var original := run.integration.value.original.workflow.results;
    forall i | 0 <= i < |run.workflow.results| && run.workflow.results[i].request.stage == Implementation
      ensures run.workflow.results[i].response.native.executor != review.response.native.executor
    {
      assert i < |original| && original[i] == run.workflow.results[i];
    }
  }

  lemma IntegratedReadyIsReviewed(run: Run, source: Tree)
    requires IntegratedHistory(run) && WorkflowReady(run, source)
    ensures ReviewedOnIntegration(run, source)
  {
    var e := run.integration.value;
    DirectReadyIsReviewed(e.original, e.candidateSource);
    if ReviewNeeded(run) {
      AppendedReviewerIsIndependent(run, run.workflow.results[|run.workflow.results| - 1]);
    }
  }

  /** In every run, what is complete is exactly what was checked and independently reviewed: the commit is the
      base with the scope replaced by one source; at that source the latest result of every declared check
      passed with no later start, and the review conditions hold; outside the scope the source is as it began. */
  lemma CompletedIsCheckedAndReviewed(s: State, trace: seq<Happening>, id: string)
    requires Initial(s) && AllPossible(trace) && id in RunOf(s, trace).records
    requires RunOf(s, trace).records[id].status == Complete
    ensures var run := RunOf(s, trace).records[id];
            var source := FinishedSource(run);
            && run.commit.Some? && run.commit.value.parents == [run.baseCommit]
            && run.commit.value.tree == Merge(run.baseCommit.tree, Elements(run.task.scope), source)
            && Outside(source, Elements(run.task.scope)) == run.outside
            && (forall i | 0 <= i < |run.task.checks| :: LatestPassed(run, run.task.checks[i].id, source))
            && (if run.integration.Some? then ReviewedOnIntegration(run, source) else ReviewedDirectly(run, source))
  {
    RecordIsSound(s, trace, id);
    DeliveredIsReviewed(RunOf(s, trace).records[id]);
  }

  lemma DeliveredIsReviewed(run: Run)
    requires Sound(run) && run.status == Complete
    ensures Delivered(run)
    ensures var source := FinishedSource(run);
            if run.integration.Some? then ReviewedOnIntegration(run, source) else ReviewedDirectly(run, source)
  {
    if run.integration.Some? {
      IntegratedReadyIsReviewed(run, FinishedSource(run));
    } else {
      DirectReadyIsReviewed(run, FinishedSource(run));
    }
  }

  /** The finished source is the working tree `finish` was called on, and its checks were valid there and then. */
  lemma FinishUsesTheTreeItSees(s: State, id: string, owner: string, commit: Revision)
    requires FinishPlan(s, id, owner, commit).outcome.Done?
    ensures var run := FinishPlan(s, id, owner, commit).outcome.run;
            && FinishedSource(run) == s.files && s.head == commit && run.commit == Some(commit)
            && forall i | 0 <= i < |run.task.checks| ::
                 CheckValid(s.records[id], run.task.checks[i].id, s.files, s.environment, s.logs)
  {
    var before := s.records[id];
    FinishDelivers(s, before, commit);
    forall i | 0 <= i < |before.task.checks|
      ensures CheckValid(before, before.task.checks[i].id, s.files, s.environment, s.logs)
    {
      ValidIsChecked(s, before, before.task.checks[i].id);
    }
  }

  lemma ValidIsChecked(s: State, run: Run, id: string)
    requires id in Valid(s, run, s.files)
    ensures CheckValid(run, id, s.files, s.environment, s.logs)
  {
  }

  // ----- Reviews -----

  /** No review is ever recorded, accepted or not, except of a source at which its cited implementation was
      accepted (or its preserved candidate is cited) and every declared check is cited as passed. */
  lemma EveryReviewIsGrounded(s: State, trace: seq<Happening>, id: string, k: nat)
    requires Initial(s) && AllPossible(trace) && id in RunOf(s, trace).records
    requires k < |RunOf(s, trace).records[id].workflow.results|
    requires RunOf(s, trace).records[id].workflow.results[k].request.stage == Review
    ensures var run := RunOf(s, trace).records[id];
            var review, implementation := run.workflow.results[k], LastImplementation(run.workflow.results[..k]);
            if run.integration.Some? && |run.integration.value.original.workflow.results| <= k
            then Grounded(run.task.checks, OfRun(run.integration.value.original), review)
            else
              && implementation.Some? && implementation.value.accepted
              && implementation.value.response.source == review.response.source
              && Grounded(run.task.checks, OfResult(implementation.value), review)
  {
    RecordIsSound(s, trace, id);
    SoundReviewIsGrounded(RunOf(s, trace).records[id], k);
  }

  lemma SoundReviewIsGrounded(run: Run, k: nat)
    requires Sound(run) && k < |run.workflow.results| && run.workflow.results[k].request.stage == Review
    ensures var review, implementation := run.workflow.results[k], LastImplementation(run.workflow.results[..k]);
            if run.integration.Some? && |run.integration.value.original.workflow.results| <= k
            then Grounded(run.task.checks, OfRun(run.integration.value.original), review)
            else
              && implementation.Some? && implementation.value.accepted
              && implementation.value.response.source == review.response.source
              && Grounded(run.task.checks, OfResult(implementation.value), review)
  {
    if run.integration.None? {
      assert ReviewGrounded(run, k);
    } else if k < |run.integration.value.original.workflow.results| {
      var original := run.integration.value.original;
      assert original.workflow.results <= run.workflow.results;
      assert original.workflow.results[..k] == run.workflow.results[..k];
      assert ReviewGrounded(original, k);
    } else {
      assert AppendedReview(run, run.integration.value, run.workflow.results[k]);
    }
  }

  // ----- Integrated runs -----

  /** No run of operations re-authors an integrated run: its task and handoffs stay the candidate's, the
      candidate's requests, results and invalidations stay prefixes, only reviews are appended, none when
      none is needed, and the workflow check of the source guard always holds. */
  lemma IntegratedRunsAreNeverReauthored(s: State, trace: seq<Happening>, id: string)
    requires Initial(s) && AllPossible(trace) && id in RunOf(s, trace).records
    requires RunOf(s, trace).records[id].integration.Some?
    ensures var run := RunOf(s, trace).records[id];
            var original := run.integration.value.original;
            && run.task == original.task && run.handoffs == original.handoffs
            && original.workflow.requests <= run.workflow.requests && original.workflow.results <= run.workflow.results
            && original.workflow.invalidated <= run.workflow.invalidated
            && (forall i | |original.workflow.requests| <= i < |run.workflow.requests| ::
                run.workflow.requests[i].stage == Review)
            && (forall k | |original.workflow.results| <= k < |run.workflow.results| ::
                run.workflow.results[k].request.stage == Review)
            && (!ReviewNeeded(run) ==> run.workflow == original.workflow)
            && WorkflowIntact(run)
  {
    RecordIsSound(s, trace, id);
    PreservedOriginal(RunOf(s, trace).records[id]);
  }

  lemma PreservedOriginal(run: Run)
    requires IntegratedHistory(run)
    ensures var original := run.integration.value.original;
            && run.task == original.task && run.handoffs == original.handoffs
            && original.workflow.requests <= run.workflow.requests && original.workflow.results <= run.workflow.results
            && original.workflow.invalidated <= run.workflow.invalidated
            && (forall i | |original.workflow.requests| <= i < |run.workflow.requests| ::
                run.workflow.requests[i].stage == Review)
            && (forall k | |original.workflow.results| <= k < |run.workflow.results| ::
                run.workflow.results[k].request.stage == Review)
  {
  }

  /** Hence `next` refuses a prepared integrated run exactly when the tree is not the merged one. */
  lemma SourceGuardDependsOnTheTreeOnly(s: State, trace: seq<Happening>, id: string, source: Tree)
    requires Initial(s) && AllPossible(trace) && id in RunOf(s, trace).records
    requires RunOf(s, trace).records[id].integration.Some?
    ensures var run := RunOf(s, trace).records[id];
            IntegrationSourceReady(run, source) <==>
            run.integration.value.prepared && source == run.integration.value.sourceAfter
  {
    RecordIsSound(s, trace, id);
    SourceGuard(RunOf(s, trace).records[id], source);
  }

  lemma SourceGuard(run: Run, source: Tree)
    requires IntegratedHistory(run)
    ensures IntegrationSourceReady(run, source)
            <==> run.integration.value.prepared && source == run.integration.value.sourceAfter
  {
  }

  /** A candidate created beside a claimed integration starts from the last accepted commit, not from the working
      tree. */
  function CandidateSource(s: State): Tree {
    if s.active.Some? && s.active.value in s.records && s.records[s.active.value].integration.Some?
    then s.records[s.active.value].integration.value.sourceBefore else s.files
  }

  lemma CandidatesStartFromTheAcceptedCommit(s: State, trace: seq<Happening>, tasks: seq<Reservation>)
    requires Initial(s) && AllPossible(trace) && RunOf(s, trace).active.Some?
             && CandidatesAdmitted(RunOf(s, trace), tasks)
    ensures CandidateSource(RunOf(s, trace)) == RunOf(s, trace).head.tree
  {
    var t := RunOf(s, trace);
    RecordIsSound(s, trace, t.active.value);
    RecordedBase(t.records[t.active.value]);
  }

  lemma RecordedBase(run: Run)
    requires IntegratedHistory(run)
    ensures run.integration.value.sourceBefore == run.baseCommit.tree
  {
  }

  /** Without owner revalidation, the tree an integration will produce agrees with the reviewed candidate on
      its scope and on every re-pinned read, is the candidate's own when its reads were undeclared, and is
      the canonical tree everywhere else. */
  lemma IntegratedTreeIsTheReviewedTree(s: State, input: IntegrationInput, c: Checkout)
    requires PrepareIntegration(s, input, c).Ready? && input.revalidate.None?
    requires c.custody.declaredReads.None? ==> c.custody.base.Keys <= c.custody.readPaths
    ensures var e := PrepareIntegration(s, input, c).run.integration.value;
            var inputs := ReadPaths(c.custody.base, s.files, MergeCandidate(c, e.original));
            && e.candidateSource == c.source
            && (forall path | path in Elements(e.original.task.scope) + inputs ::
                Get(e.sourceAfter, path) == Get(c.source, path))
            && (c.custody.declaredReads.None? ==> e.sourceAfter == c.source)
            && Outside(e.sourceAfter, Elements(e.original.task.scope))
               == Outside(s.files, Elements(e.original.task.scope))
  {
    var original := c.record.value;
    var canonical := Canonical(s.files, Since(s.names, s.records, c.custody.baseCommit, s.head));
    PreparationMeets(s, input, c);
    PreparationMerges(s, input, c);
    MergedTreeIsTheReviewedTree(c.custody.base, canonical, MergeCandidate(c, original));
  }

  lemma PreparationMerges(s: State, input: IntegrationInput, c: Checkout)
    requires PrepareIntegration(s, input, c).Ready? && c.record.Some?
    ensures var canonical := Canonical(s.files, Since(s.names, s.records, c.custody.baseCommit, s.head));
            Prepare(c.custody.base, canonical, MergeCandidate(c, c.record.value), input.revalidate.Some?)
            == Success(PrepareIntegration(s, input, c).run.integration.value.sourceAfter)
    ensures Outside(c.source, Elements(c.record.value.task.scope))
            == Outside(c.custody.base, Elements(c.record.value.task.scope))
  {
  }

  // ----- next -----

  /** A native request that `next` returns rests only on checks whose environment and logs are unchanged, and
      asking again returns the same request and saves the same record. */
  lemma NextReturnsAStableRequest(s: State, trace: seq<Happening>, id: string, owner: string, request: Request)
    requires Initial(s) && AllPossible(trace)
    requires NextPlan(RunOf(s, trace), id, owner).outcome == Acted(Native(request))
    ensures var t := RunOf(s, trace);
            var plan := NextPlan(t, id, owner);
            var u := Perform(t, plan.writes);
            && id in u.records && PrerequisitesIntact(u.records[id], request, t.environment, t.logs)
            && NextPlan(u, id, owner) == plan && Perform(u, plan.writes) == u
  {
    var t := RunOf(s, trace);
    RecordIsSound(s, trace, id);
    NextAgain(t, id, owner, request);
  }

  lemma SoundTask(run: Run)
    requires Sound(run)
    ensures Bookkept(run.workflow) && DistinctChecks(run.task)
  {
  }

  /** The parts of a `next` that returned a native request. */
  ghost predicate NextGranted(s: State, id: string, owner: string, run: Run, decided: Decision) {
    && id in s.records && s.records[id] == run && run.status == Active
    && Authorize(s, id, owner, true) == Granted(run, s.files)
    && decided.Decided? && decided.action.Native?
    && PrerequisitesIntact(decided.run, decided.action.request, s.environment, s.logs)
  }

  lemma NextGrants(s: State, id: string, owner: string, request: Request)
    requires NextPlan(s, id, owner).outcome == Acted(Native(request))
    ensures id in s.records
    ensures var decided := NextAction(s.records[id], s.files, Valid(s, s.records[id], s.files));
            && NextGranted(s, id, owner, s.records[id], decided) && decided.action == Native(request)
            && NextPlan(s, id, owner) == Plan([Save(decided.run)], Acted(Native(request)))
  {
  }

  lemma NextPlanFrom(s: State, id: string, owner: string, run: Run, decided: Decision)
    requires NextGranted(s, id, owner, run, decided) && run.task.owner == owner
    requires NextAction(run, s.files, Valid(s, run, s.files)) == decided
    ensures NextPlan(s, id, owner) == Plan([Save(decided.run)], Acted(decided.action))
  {
  }

  lemma NextAgain(s: State, id: string, owner: string, request: Request)
    requires NextPlan(s, id, owner).outcome == Acted(Native(request))
    requires Sound(s.records[id]) && s.records[id].task.id == id
    ensures var plan := NextPlan(s, id, owner);
            var u := Perform(s, plan.writes);
            && id in u.records && PrerequisitesIntact(u.records[id], request, s.environment, s.logs)
            && NextPlan(u, id, owner) == plan && Perform(u, plan.writes) == u
  {
    NextGrants(s, id, owner, request);
    SoundTask(s.records[id]);
    var run := s.records[id];
    var valid := Valid(s, run, s.files);
    ValidIsDeclared(s, run);
    NextIsStable(run, s.files, valid);
    NextKeepsBooks(run, s.files, valid);
    DecideAgain(s, id, owner, run, NextAction(run, s.files, valid));
  }

  lemma DecideAgain(s: State, id: string, owner: string, run: Run, decided: Decision)
    requires NextGranted(s, id, owner, run, decided) && run.task.id == id && run.task.owner == owner
    requires OnlyAsks(run, decided.run)
    requires NextAction(decided.run, s.files, Valid(s, run, s.files)) == decided
    ensures var u := Perform(s, [Save(decided.run)]);
            && id in u.records && u.records[id] == decided.run
            && NextPlan(u, id, owner) == Plan([Save(decided.run)], Acted(decided.action))
            && Perform(u, [Save(decided.run)]) == u
  {
    PerformOne(s, Save(decided.run));
    var u := Put(s, Save(decided.run));
    PerformOne(u, Save(decided.run));
    ValidFrame(s, u, run, decided.run);
    StillGranted(s, u, id, owner, run, decided);
    NextPlanFrom(u, id, owner, decided.run, decided);
  }

  lemma StillGranted(s: State, u: State, id: string, owner: string, run: Run, decided: Decision)
    requires NextGranted(s, id, owner, run, decided) && run.task.id == id && OnlyAsks(run, decided.run)
    requires u == Put(s, Save(decided.run))
    ensures NextGranted(u, id, owner, decided.run, decided)
  {
  }

  lemma ValidIsDeclared(s: State, run: Run)
    requires DistinctChecks(run.task)
    ensures Declared(run, Valid(s, run, s.files))
  {
  }

  lemma ValidFrame(s: State, u: State, run: Run, now: Run)
    requires OnlyAsks(run, now) && u.files == s.files && u.environment == s.environment && u.logs == s.logs
    ensures Valid(u, now, u.files) == Valid(s, run, s.files)
  {
  }
}
