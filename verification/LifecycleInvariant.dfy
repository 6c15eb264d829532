/** What every record of a delivery keeps, whatever operations are performed on it. */
module LifecycleInvariant {
  import opened Basics
  import opened Integration
  import opened Records
  import opened Workflows
  import opened WorkflowLaws
  import opened Prerequisites
  import opened Lifecycle

  // ----- Results -----

  ghost predicate ResultSound(result: StageResult) {
    && result.response.request == result.request
    && (result.accepted <==> result.response.outcome == Completed && result.reasons == [])
  }

  ghost predicate ResultsSound(results: seq<StageResult>) {
    forall i | 0 <= i < |results| :: ResultSound(results[i])
  }

  /** Implementations come from bound executors, and no review comes from the executor of an earlier implementation. */
  ghost predicate IndependentExecutors(handoffs: seq<Handoff>, results: seq<StageResult>) {
    && (forall i | 0 <= i < |results| && results[i].request.stage == Implementation ::
          HasExecutor(handoffs, results[i].response.native.executor))
    && (forall i, k | 0 <= i < k < |results| && results[i].request.stage == Implementation
        && results[k].request.stage == Review ::
          results[i].response.native.executor != results[k].response.native.executor)
  }

  /** One digest for each declared check, each of a result that passed at this source. */
  ghost predicate PassedAt(checks: seq<CheckSpec>, digests: seq<Digest>, source: Tree) {
    && |digests| == |checks|
    && forall j | 0 <= j < |checks| ::
         && digests[j].OfCheck? && digests[j].check.spec.id == checks[j].id && digests[j].check.passed
         && digests[j].check.sourceBefore == source && digests[j].check.sourceAfter == Some(source)
  }

  /** A review was asked for and answered at one source, citing its subject and passed checks of that source. */
  ghost predicate Grounded(checks: seq<CheckSpec>, subject: Digest, review: StageResult) {
    && review.request.source == review.response.source
    && |review.request.prerequisites| > 0 && review.request.prerequisites[0] == subject
    && PassedAt(checks, review.request.prerequisites[1..], review.response.source)
  }

  ghost predicate ReviewGrounded(run: Run, k: nat)
    requires k < |run.workflow.results|
  {
    var review, implementation := run.workflow.results[k], LastImplementation(run.workflow.results[..k]);
    review.request.stage == Review ==>
      && implementation.Some? && implementation.value.accepted
      && implementation.value.response.source == review.response.source
      && Grounded(run.task.checks, OfResult(implementation.value), review)
  }

  // ----- Histories -----

  ghost predicate DirectHistory(run: Run) {
    && run.integration.None? && DistinctChecks(run.task)
    && Bookkept(run.workflow) && ResultsSound(run.workflow.results)
    && IndependentExecutors(run.handoffs, run.workflow.results)
    && forall k | 0 <= k < |run.workflow.results| :: ReviewGrounded(run, k)
  }

  /** What preparation records: the merge of a reviewed candidate into the committed tree. */
  ghost predicate EvidenceRecorded(run: Run, e: Integrated) {
    && e.sourceBefore == run.baseCommit.tree
    && e.sourceAfter == Merge(e.sourceBefore, Elements(run.task.scope), e.candidateSource)
    && run.outside == Outside(e.sourceBefore, Elements(run.task.scope))
    && (e.revalidation.Some? ==> e.revalidation.value == Pin(run.baseCommit, e.sourceBefore))
  }

  ghost predicate OriginalPreserved(run: Run, e: Integrated) {
    && DirectHistory(e.original) && e.candidateDigest == e.original && DirectReady(e.original, e.candidateSource)
    && e.original.handoffs != []
    && run.task == e.original.task && run.handoffs == e.original.handoffs
  }

  ghost predicate AppendedRequests(run: Run, e: Integrated) {
    forall i | |e.original.workflow.requests| <= i < |run.workflow.requests| ::
      run.workflow.requests[i].source == e.sourceAfter && !run.workflow.requests[i].repair
  }

  ghost predicate AppendedReviews(run: Run, e: Integrated) {
    forall k | |e.original.workflow.results| <= k < |run.workflow.results| ::
      AppendedReview(run, e, run.workflow.results[k])
  }

  ghost predicate AppendedReview(run: Run, e: Integrated, review: StageResult) {
    && Grounded(run.task.checks, OfRun(e.original), review)
    && !HasExecutor(run.handoffs, review.response.native.executor)
    && !AnsweredBy(e.original.workflow.results, review.response.native.executor)
  }

  ghost predicate IntegratedHistory(run: Run) {
    && run.integration.Some? && Bookkept(run.workflow) && ResultsSound(run.workflow.results)
    && var e := run.integration.value;
       && OriginalPreserved(run, e) && EvidenceRecorded(run, e) && WorkflowIntact(run)
          && AppendedRequests(run, e) && AppendedReviews(run, e)
  }

  ghost predicate History(run: Run) {
    if run.integration.Some? then IntegratedHistory(run) else DirectHistory(run)
  }

  // ----- Completion -----

  function FinishedSource(run: Run): Tree {
    if run.integration.Some? then run.integration.value.sourceAfter
    else if |run.workflow.results| > 0 then run.workflow.results[|run.workflow.results| - 1].response.source
    else map[]
  }

  ghost predicate LatestPassed(run: Run, id: string, source: Tree) {
    var latest := LatestCheck(run.checks, id);
    && latest.Some? && latest.value.passed
    && latest.value.sourceBefore == source && latest.value.sourceAfter == Some(source)
    && LatestStart(run.events, id) == Some(CheckStart(id, latest.value.attempt))
  }

  /** What is complete is what was checked and independently reviewed: the commit is the base with the
      scope replaced by that source, and nothing else of the source differs from the start. */
  ghost predicate Delivered(run: Run) {
    var source := FinishedSource(run);
    && run.commit.Some? && run.verdict == Some(true)
    && run.commit.value.parents == [run.baseCommit]
    && run.commit.value.tree == Merge(run.baseCommit.tree, Elements(run.task.scope), source)
    && Outside(source, Elements(run.task.scope)) == run.outside
    && (forall i | 0 <= i < |run.task.checks| :: LatestPassed(run, run.task.checks[i].id, source))
    && WorkflowReady(run, source)
  }

  ghost predicate StatusSound(run: Run) {
    && (run.status == Active ==> run.handoffs != [])
    && (run.integration.Some? ==> run.status != AwaitingNative)
    && (run.status == Complete ==> Delivered(run))
  }

  ghost predicate Sound(run: Run) {
    History(run) && StatusSound(run)
  }

  ghost predicate WellKeyed(s: State) {
    forall id | id in s.records :: s.records[id].task.id == id
  }

  function RecordAt(s: State, id: string): Run
    requires id in s.records
  {
    s.records[id]
  }

  ghost predicate AllRecords(s: State, p: Run -> bool) {
    WellKeyed(s) && forall id {:trigger RecordAt(s, id)} | id in s.records :: p(RecordAt(s, id))
  }

  ghost function Soundness(): Run -> bool {
    run => Sound(run)
  }

  ghost predicate SoundRecords(s: State) {
    AllRecords(s, Soundness())
  }

  /** What a save never changes once a record exists. */
  ghost predicate SameIdentity(run: Run, now: Run) {
    && now.task == run.task && now.baseCommit == run.baseCommit && now.outside == run.outside
    && (now.integration.Some? <==> run.integration.Some?)
    && (run.integration.Some?
        ==> now.integration.value == run.integration.value.(prepared := now.integration.value.prepared))
  }

  /** A record that may be saved: sound, and the record it replaces in all that never changes. */
  ghost predicate Savable(s: State, run: Run) {
    Sound(run) && (run.task.id in s.records ==> SameIdentity(s.records[run.task.id], run))
  }

  ghost predicate SavesSound(s: State, writes: seq<Write>) {
    forall i | 0 <= i < |writes| && writes[i].Save? :: Savable(s, writes[i].run)
  }

  // ----- Frames -----

  /** Everything the history depends on. */
  ghost predicate SameHistory(run: Run, now: Run) {
    && now.task == run.task && now.baseCommit == run.baseCommit && now.outside == run.outside
    && now.handoffs == run.handoffs && now.workflow == run.workflow && now.integration == run.integration
  }

  lemma HistoryFrame(run: Run, now: Run)
    requires SameHistory(run, now) && History(run)
    ensures History(now)
  {
    if run.integration.Some? {
      assert ReviewPaths(now) == ReviewPaths(run);
    } else {
      forall k | 0 <= k < |now.workflow.results|
        ensures ReviewGrounded(now, k)
      {
        assert ReviewGrounded(run, k);
      }
    }
  }

  lemma IntactFrame(run: Run, now: Run)
    requires run.integration.Some? && now.integration.Some? && now.task == run.task
    requires now.integration.value == run.integration.value.(prepared := now.integration.value.prepared)
    ensures ReviewPaths(now) == ReviewPaths(run) && ReviewNeeded(now) == ReviewNeeded(run)
  {
  }

  /** No request of the preserved candidate is open. */
  lemma OriginalRequestsAreClosed(original: Workflow, current: Workflow, i: nat)
    requires NothingPending(original) && i < |original.requests|
    requires original.results <= current.results && original.invalidated <= current.invalidated
    ensures !Open(current, original.requests[i])
  {
    var request := original.requests[i];
    assert !Open(original, request);
    if request !in original.invalidated {
      var k :| 0 <= k < |original.results| && original.results[k].request == request;
      assert current.results[k].request == request;
    }
  }

  /** An open request of an integrated run is an appended review of the merged source. */
  lemma OpenRequestIsAppended(run: Run, request: Request)
    requires run.integration.Some? && WorkflowIntact(run) && AppendedRequests(run, run.integration.value)
    requires Bookkept(run.workflow) && NothingPending(run.integration.value.original.workflow)
    requires request in run.workflow.requests && Open(run.workflow, request)
    ensures ReviewNeeded(run) && request.stage == Review && !request.repair
    ensures request.source == run.integration.value.sourceAfter
    ensures |run.integration.value.original.workflow.requests| < |run.workflow.requests|
    ensures Pending(run.workflow) == Some(request)
  {
    var original := run.integration.value.original.workflow;
    var i :| 0 <= i < |run.workflow.requests| && run.workflow.requests[i] == request;
    OnlyTheNewestIsPending(run.workflow, request);
    if i < |original.requests| {
      assert original.requests[i] == request;
      OriginalRequestsAreClosed(original, run.workflow, i);
    }
  }
}
