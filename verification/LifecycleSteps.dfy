/** Each operation saves only sound records. */
module LifecycleSteps {
  import opened Basics
  import opened Integration
  import opened Records
  import opened Workflows
  import opened WorkflowLaws
  import opened Lifecycle
  import opened LifecycleInvariant

  // ----- Growth of a workflow -----

  /** Requests and invalidations may grow while the results stay. */
  lemma DirectGrows(run: Run, now: Run)
    requires DirectHistory(run) && now.integration.None? && now.task == run.task && run.handoffs <= now.handoffs
    requires now.workflow.results == run.workflow.results && Bookkept(now.workflow)
    ensures DirectHistory(now)
  {
    forall k | 0 <= k < |now.workflow.results|
      ensures ReviewGrounded(now, k)
    {
      assert ReviewGrounded(run, k);
    }
    forall i | 0 <= i < |now.workflow.results| && now.workflow.results[i].request.stage == Implementation
      ensures HasExecutor(now.handoffs, now.workflow.results[i].response.native.executor)
    {
      MoreHandoffs(run.handoffs, now.handoffs, now.workflow.results[i].response.native.executor);
    }
  }

  lemma MoreHandoffs(few: seq<Handoff>, more: seq<Handoff>, executor: string)
    requires few <= more && HasExecutor(few, executor)
    ensures HasExecutor(more, executor)
  {
    var i :| 0 <= i < |few| && few[i].executor == executor;
    assert more[i].executor == executor;
  }

  /** An integrated run may gain invalidations, and review requests of its merged source. */
  lemma IntegratedGrows(run: Run, now: Run)
    requires IntegratedHistory(run) && now == run.(workflow := now.workflow) && Bookkept(now.workflow)
    requires now.workflow.results == run.workflow.results
    requires run.workflow.requests <= now.workflow.requests && run.workflow.invalidated <= now.workflow.invalidated
    requires forall i | |run.workflow.requests| <= i < |now.workflow.requests| ::
               var request := now.workflow.requests[i];
               request.stage == Review && request.source == run.integration.value.sourceAfter && !request.repair
    requires ReviewNeeded(run) || now.workflow == run.workflow
    ensures IntegratedHistory(now)
  {
    IntactFrame(run, now);
    IntactGrows(run, now);
    RequestsGrow(run, now);
    assert AppendedReviews(now, now.integration.value) by {
      assert AppendedReviews(run, run.integration.value);
    }
  }

  lemma IntactGrows(run: Run, now: Run)
    requires run.integration.Some? && WorkflowIntact(run) && now == run.(workflow := now.workflow)
    requires ReviewNeeded(now) == ReviewNeeded(run)
    requires run.workflow.results <= now.workflow.results
    requires forall k | |run.workflow.results| <= k < |now.workflow.results| ::
             now.workflow.results[k].request.stage == Review
    requires run.workflow.requests <= now.workflow.requests && run.workflow.invalidated <= now.workflow.invalidated
    requires forall i | |run.workflow.requests| <= i < |now.workflow.requests| ::
             now.workflow.requests[i].stage == Review
    requires ReviewNeeded(run) || now.workflow == run.workflow
    ensures WorkflowIntact(now)
  {
  }

  lemma RequestsGrow(run: Run, now: Run)
    requires run.integration.Some? && AppendedRequests(run, run.integration.value) && now.integration == run.integration
    requires run.workflow.requests <= now.workflow.requests
    requires forall i | |run.workflow.requests| <= i < |now.workflow.requests| ::
               var request := now.workflow.requests[i];
               request.source == run.integration.value.sourceAfter && !request.repair
    ensures AppendedRequests(now, now.integration.value)
  {
  }

  // ----- next -----

  lemma NextKeepsHistory(run: Run, source: Tree, valid: set<string>)
    requires History(run) && NextAction(run, source, valid).Decided?
    ensures var now := NextAction(run, source, valid).run;
            History(now) && now == run.(workflow := now.workflow)
  {
    var decided := NextAction(run, source, valid);
    NextKeepsBooks(run, source, valid);
    if run.integration.None? {
      DirectGrows(run, decided.run);
    } else if decided.run != run {
      DropPendingKeepsBooks(run);
      IntegratedNextGrows(run, source, valid, decided);
      IntegratedGrows(run, decided.run);
    }
  }

  ghost predicate GrowsByReviews(run: Run, now: Run)
    requires run.integration.Some?
  {
    && ReviewNeeded(run)
    && forall i | |run.workflow.requests| <= i < |now.workflow.requests| ::
         var request := now.workflow.requests[i];
         request.stage == Review && request.source == run.integration.value.sourceAfter && !request.repair
  }

  /** An integrated run that stops after dropping a stale review needed one. */
  lemma IntegratedStops(run: Run, source: Tree, valid: set<string>)
    requires run.integration.Some? && NextIntegrated(run, source, valid).Decided?
    requires !NextIntegrated(run, source, valid).action.Native? && NextIntegrated(run, source, valid).run != run
    ensures NextIntegrated(run, source, valid).run == DropPending(run) && ReviewNeeded(run)
  {
  }

  lemma IntegratedNextGrows(run: Run, source: Tree, valid: set<string>, decided: Decision)
    requires run.integration.Some? && Bookkept(run.workflow)
    requires decided == NextIntegrated(run, source, valid) && decided.Decided? && decided.run != run
    ensures GrowsByReviews(run, decided.run)
  {
    if decided.action.Native? {
      AskedForReview(run, source, valid);
      AskedGrows(run, source, decided);
    } else {
      IntegratedStops(run, source, valid);
      DropPendingKeepsBooks(run);
    }
  }

  lemma AskedGrows(run: Run, source: Tree, decided: Decision)
    requires run.integration.Some? && IntegrationSourceReady(run, source) && ReviewNeeded(run)
    requires decided.Decided? && decided.action.Native?
    requires var request := decided.action.request;
             && request.stage == Review && request.source == source && !request.repair
             && decided.run.workflow.requests == run.workflow.requests + [request]
    ensures GrowsByReviews(run, decided.run)
  {
  }

  // ----- bind, fallback and repair -----

  function ReroutedWorkflow(run: Run, request: Request, native: Handoff, failedApi: Option<ApiEvidence>): Workflow {
    Append(Invalidate(run.workflow, request), Rerouted(run, request, native, failedApi))
  }

  lemma RerouteKeepsBooks(run: Run, request: Request, native: Handoff, failedApi: Option<ApiEvidence>)
    requires Bookkept(run.workflow) && request in run.workflow.requests && Open(run.workflow, request)
    ensures var w := ReroutedWorkflow(run, request, native, failedApi);
            Bookkept(w) && Pending(w) == Some(Rerouted(run, request, native, failedApi))
  {
    InvalidateKeepsBooks(run.workflow, request);
    AppendKeepsBooks(Invalidate(run.workflow, request), Rerouted(run, request, native, failedApi));
  }

  lemma IntegratedReroute(run: Run, request: Request, native: Handoff, failedApi: Option<ApiEvidence>)
    requires IntegratedHistory(run) && request in run.workflow.requests && Open(run.workflow, request)
    ensures var now := Reroute(run, request, native, failedApi);
            IntegratedHistory(now) && now == WithWorkflow(run, ReroutedWorkflow(run, request, native, failedApi))
  {
    RerouteKeepsBooks(run, request, native, failedApi);
    assert NothingPending(run.integration.value.original.workflow);
    OpenRequestIsAppended(run, request);
    IntegratedGrows(run, WithWorkflow(run, ReroutedWorkflow(run, request, native, failedApi)));
  }

  lemma RerouteKeepsHistory(run: Run, request: Request, native: Handoff, failedApi: Option<ApiEvidence>)
    requires History(run) && request in run.workflow.requests && Open(run.workflow, request)
    ensures History(Reroute(run, request, native, failedApi))
    ensures run.integration.Some? ==> Reroute(run, request, native, failedApi).handoffs == run.handoffs
  {
    if run.integration.None? {
      RerouteKeepsBooks(run, request, native, failedApi);
      DirectGrows(run, Reroute(run, request, native, failedApi));
    } else {
      IntegratedReroute(run, request, native, failedApi);
    }
  }

  // ----- resume and reconcile -----

  lemma {:induction false} InvalidateOpenKeepsBooks(w: Workflow, count: nat)
    requires Bookkept(w) && count <= |w.requests|
    ensures var v := InvalidateOpen(w, count);
            && Bookkept(v) && v.requests == w.requests && v.results == w.results && w.invalidated <= v.invalidated
            && (count > 0 ==> !Open(v, v.requests[count - 1]))
            && (NothingPending(w) ==> v == w)
  {
    if count > 0 {
      InvalidateOpenKeepsBooks(w, count - 1);
      var before := InvalidateOpen(w, count - 1);
      if Open(before, w.requests[count - 1]) {
        InvalidateKeepsBooks(before, w.requests[count - 1]);
      }
    }
  }

  lemma IntegratedInvalidates(run: Run, w: Workflow)
    requires IntegratedHistory(run) && Bookkept(w) && (NothingPending(run.workflow) ==> w == run.workflow)
    requires w.requests == run.workflow.requests && w.results == run.workflow.results
             && run.workflow.invalidated <= w.invalidated
    ensures IntegratedHistory(WithWorkflow(run, w))
  {
    if !ReviewNeeded(run) {
      assert NothingPending(run.integration.value.original.workflow);
    }
    IntegratedGrows(run, WithWorkflow(run, w));
  }

  lemma ReactivatingKeepsHistory(run: Run)
    requires History(run)
    ensures History(Reactivated(run)) && NothingPending(Reactivated(run).workflow)
    ensures Reactivated(run).handoffs == run.handoffs
  {
    var w := InvalidateOpen(run.workflow, |run.workflow.requests|);
    InvalidateOpenKeepsBooks(run.workflow, |run.workflow.requests|);
    if run.integration.None? {
      DirectGrows(run, WithWorkflow(run, w));
    } else {
      IntegratedInvalidates(run, w);
    }
    HistoryFrame(WithWorkflow(run, w), Reactivated(run));
  }

  // ----- submit -----

  /** When every check is valid for a source, the cited digests are of results that passed there. */
  lemma ValidDigestsPassed(run: Run, source: Tree, environment: string, logs: map<Log, string>)
    requires DistinctChecks(run.task) && |ValidChecks(run, source, environment, logs)| == |run.task.checks|
    ensures PassedAt(run.task.checks, CheckDigests(run), source)
  {
    ValidCount(run, source, environment, logs);
  }

  lemma SubmittedReviewIsGrounded(s: State, run: Run, source: Tree, response: Response, subject: Digest)
    requires DistinctChecks(run.task) && SubmitRefusal(s, run, source, response).None?
             && response.request.stage == Review
    requires response.request.prerequisites == [subject] + CheckDigests(run)
    ensures Grounded(run.task.checks, subject, ResultOf(run, source, response))
  {
    ValidDigestsPassed(run, source, s.environment, s.logs);
    assert response.request.prerequisites[1..] == CheckDigests(run);
  }

  lemma ExecutorsExtend(handoffs: seq<Handoff>, results: seq<StageResult>, result: StageResult)
    requires IndependentExecutors(handoffs, results)
    requires if result.request.stage == Implementation then HasExecutor(handoffs, result.response.native.executor)
             else !HasExecutor(handoffs, result.response.native.executor)
    ensures IndependentExecutors(handoffs, results + [result])
  {
    var longer := results + [result];
    forall i, k | 0 <= i < k < |longer| && longer[i].request.stage == Implementation
      && longer[k].request.stage == Review
      ensures longer[i].response.native.executor != longer[k].response.native.executor
    {
      if k == |results| {
        assert HasExecutor(handoffs, results[i].response.native.executor);
      }
    }
  }

  lemma GroundedExtends(run: Run, now: Run, result: StageResult)
    requires forall k | 0 <= k < |run.workflow.results| :: ReviewGrounded(run, k)
    requires now.task == run.task && now.workflow.results == run.workflow.results + [result]
    requires result.request.stage == Review ==>
               var implementation := LastImplementation(run.workflow.results);
               && implementation.Some? && implementation.value.accepted
               && implementation.value.response.source == result.response.source
               && Grounded(run.task.checks, OfResult(implementation.value), result)
    ensures forall k | 0 <= k < |now.workflow.results| :: ReviewGrounded(now, k)
  {
    forall k | 0 <= k < |now.workflow.results|
      ensures ReviewGrounded(now, k)
    {
      if k < |run.workflow.results| {
        assert ReviewGrounded(run, k);
        assert now.workflow.results[..k] == run.workflow.results[..k];
      } else {
        assert now.workflow.results[..k] == run.workflow.results;
      }
    }
  }

  function Answering(run: Run, result: StageResult): Run {
    WithWorkflow(run, Answer(run.workflow, result))
  }

  lemma ResultIsSound(run: Run, source: Tree, response: Response)
    ensures ResultSound(ResultOf(run, source, response))
    ensures ResultOf(run, source, response).request == response.request
    ensures ResultOf(run, source, response).response == response
  {
  }

  /** What the guards of `submit` establish. */
  ghost predicate SubmitMet(run: Run, source: Tree, response: Response) {
    var request, implementation := response.request, LastImplementation(run.workflow.results);
    && request in run.workflow.requests && Open(run.workflow, request) && response.source == source
    && (if request.stage == Implementation then HasExecutor(run.handoffs, response.native.executor)
        else !HasExecutor(run.handoffs, response.native.executor))
    && (request.stage == Review && run.integration.None? ==>
          && implementation.Some? && implementation.value.accepted && implementation.value.response.source == source
          && Grounded(run.task.checks, OfResult(implementation.value), ResultOf(run, source, response)))
    && (request.stage == Review && run.integration.Some? ==>
          AppendedReview(run, run.integration.value, ResultOf(run, source, response)))
  }

  lemma SubmitGuards(s: State, run: Run, source: Tree, response: Response)
    requires DistinctChecks(run.task) && SubmitRefusal(s, run, source, response).None?
    ensures SubmitMet(run, source, response)
  {
    if response.request.stage == Implementation {
      assert HasExecutor(run.handoffs, run.handoffs[|run.handoffs| - 1].executor);
    } else if run.integration.Some? {
      SubmittedReviewIsGrounded(s, run, source, response, OfRun(run.integration.value.original));
    } else {
      SubmittedReviewIsGrounded(s, run, source, response, OfResult(LastImplementation(run.workflow.results).value));
    }
  }

  lemma DirectSubmit(run: Run, source: Tree, response: Response)
    requires DirectHistory(run) && SubmitMet(run, source, response)
    ensures DirectHistory(Answering(run, ResultOf(run, source, response)))
  {
    var result := ResultOf(run, source, response);
    var now := Answering(run, result);
    ResultIsSound(run, source, response);
    AnswerKeepsBooks(run.workflow, result);
    ExecutorsExtend(run.handoffs, run.workflow.results, result);
    GroundedExtends(run, now, result);
  }

  lemma IntegratedSubmit(run: Run, source: Tree, response: Response)
    requires IntegratedHistory(run) && SubmitMet(run, source, response)
    ensures IntegratedHistory(Answering(run, ResultOf(run, source, response)))
  {
    assert NothingPending(run.integration.value.original.workflow);
    OpenRequestIsAppended(run, response.request);
    ResultIsSound(run, source, response);
    AnswerKeepsIntegrated(run, ResultOf(run, source, response));
  }

  lemma AnswerKeepsIntegrated(run: Run, result: StageResult)
    requires IntegratedHistory(run) && ReviewNeeded(run) && result.request.stage == Review
    requires result.request in run.workflow.requests && Open(run.workflow, result.request) && ResultSound(result)
    requires AppendedReview(run, run.integration.value, result)
    ensures IntegratedHistory(Answering(run, result))
  {
    AnswerKeepsBooks(run.workflow, result);
    AnsweredStaysIntact(run, result);
    ReviewsGrow(run, Answering(run, result), result);
  }

  lemma AnsweredStaysIntact(run: Run, result: StageResult)
    requires run.integration.Some? && WorkflowIntact(run) && AppendedRequests(run, run.integration.value)
    requires ReviewNeeded(run) && result.request.stage == Review
    ensures WorkflowIntact(Answering(run, result)) && AppendedRequests(Answering(run, result), run.integration.value)
  {
    IntactFrame(run, Answering(run, result));
    IntactGrows(run, Answering(run, result));
  }

  lemma ReviewsGrow(run: Run, now: Run, result: StageResult)
    requires run.integration.Some? && AppendedReviews(run, run.integration.value)
    requires AppendedReview(run, run.integration.value, result)
    requires now.integration == run.integration && now.task == run.task && now.handoffs == run.handoffs
    requires now.workflow.results == run.workflow.results + [result]
    ensures AppendedReviews(now, now.integration.value)
  {
  }

  lemma SubmitKeepsHistory(s: State, run: Run, source: Tree, response: Response)
    requires History(run) && SubmitRefusal(s, run, source, response).None?
    ensures History(Answering(run, ResultOf(run, source, response)))
  {
    SubmitGuards(s, run, source, response);
    if run.integration.Some? {
      IntegratedSubmit(run, source, response);
    } else {
      DirectSubmit(run, source, response);
    }
  }
}
