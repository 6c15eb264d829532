/** What every transition of a stage workflow keeps, and why the next transition is stable. */
module WorkflowLaws {
  import opened Basics
  import opened Integration
  import opened Records
  import opened Workflows

  /** Attempts count the requests; every answer and invalidation names a request, none names one twice or
      both ways, and only the newest request can still be open. */
  ghost predicate Bookkept(w: Workflow) {
    && (forall i | 0 <= i < |w.requests| :: w.requests[i].attempt == i + 1)
    && (forall i | 0 <= i < |w.results| :: w.results[i].request in w.requests && w.results[i].request !in w.invalidated)
    && (forall i | 0 <= i < |w.invalidated| :: w.invalidated[i] in w.requests)
    && (forall i, j | 0 <= i < j < |w.results| :: w.results[i].request != w.results[j].request)
    && (forall i, j | 0 <= i < j < |w.invalidated| :: w.invalidated[i] != w.invalidated[j])
    && (forall i | 0 <= i < |w.requests| - 1 :: !Open(w, w.requests[i]))
  }

  /** Request ids are distinct, at most one request is open, and none is both answered and invalidated. */
  lemma BooksIdentifyRequests(w: Workflow, i: nat, j: nat)
    requires Bookkept(w) && i < |w.requests| && j < |w.requests|
    ensures w.requests[i] == w.requests[j] ==> i == j
    ensures Open(w, w.requests[i]) && Open(w, w.requests[j]) ==> i == j == |w.requests| - 1
    ensures !(Answered(w, w.requests[i]) && w.requests[i] in w.invalidated)
  {
    assert w.requests[i].attempt == i + 1 && w.requests[j].attempt == j + 1;
  }

  lemma PendingIsTheNewest(w: Workflow)
    requires Bookkept(w)
    ensures Pending(w).None? <==> NothingPending(w)
    ensures Pending(w).Some? ==> |w.requests| > 0 && Pending(w).value == w.requests[|w.requests| - 1]
  {
    var pending := Pending(w);
    if pending.Some? {
      var i :| 0 <= i < |w.requests| && w.requests[i] == pending.value;
      assert Open(w, w.requests[i]);
    } else {
      forall i | 0 <= i < |w.requests|
        ensures !Open(w, w.requests[i])
      {
        assert w.requests[i] in w.requests;
      }
    }
  }

  lemma OnlyTheNewestIsPending(w: Workflow, request: Request)
    requires Bookkept(w) && request in w.requests && Open(w, request)
    ensures Pending(w) == Some(request)
  {
    PendingIsTheNewest(w);
  }

  lemma InvalidateKeepsBooks(w: Workflow, request: Request)
    requires Bookkept(w) && request in w.requests && Open(w, request)
    ensures Bookkept(Invalidate(w, request)) && NothingPending(Invalidate(w, request))
  {
    var v := Invalidate(w, request);
    forall i | 0 <= i < |v.requests|
      ensures !Open(v, v.requests[i])
    {
      if !Open(w, w.requests[i]) && w.requests[i] !in w.invalidated {
        var k :| 0 <= k < |w.results| && w.results[k].request == w.requests[i];
        assert v.results[k].request == v.requests[i];
      }
    }
  }

  lemma AppendKeepsBooks(w: Workflow, request: Request)
    requires Bookkept(w) && NothingPending(w) && request.attempt == |w.requests| + 1
    ensures Bookkept(Append(w, request)) && Pending(Append(w, request)) == Some(request)
  {
    var v := Append(w, request);
    assert request !in w.requests by {
      if request in w.requests {
        assert false;
      }
    }
    forall i | 0 <= i < |v.requests| - 1
      ensures !Open(v, v.requests[i])
    {
      assert !Open(w, w.requests[i]);
    }
    assert Open(v, request) && v.requests[|v.requests| - 1] == request;
    assert Bookkept(v);
    OnlyTheNewestIsPending(v, request);
  }

  lemma AnswerKeepsBooks(w: Workflow, result: StageResult)
    requires Bookkept(w) && result.request in w.requests && Open(w, result.request)
    ensures Bookkept(Answer(w, result)) && NothingPending(Answer(w, result))
  {
    var v := Answer(w, result);
    assert v.results[|v.results| - 1] == result;
    forall i | 0 <= i < |v.requests|
      ensures !Open(v, v.requests[i])
    {
      OnlyTheNewestIsPending(w, result.request);
      if w.requests[i] != result.request && w.requests[i] !in w.invalidated {
        PendingIsTheNewest(w);
        assert !Open(w, w.requests[i]);
        var k :| 0 <= k < |w.results| && w.results[k].request == w.requests[i];
        assert v.results[k].request == v.requests[i];
      }
    }
    forall i, j | 0 <= i < j < |v.results|
      ensures v.results[i].request != v.results[j].request
    {
      if j == |w.results| {
        assert w.results[i].request == result.request ==> Answered(w, result.request);
      }
    }
  }

  lemma DropPendingKeepsBooks(run: Run)
    requires Bookkept(run.workflow)
    ensures var now := DropPending(run);
            && Bookkept(now.workflow) && NothingPending(now.workflow)
            && now.workflow.requests == run.workflow.requests && now.workflow.results == run.workflow.results
            && run.workflow.invalidated <= now.workflow.invalidated
            && now == run.(workflow := now.workflow)
  {
    PendingIsTheNewest(run.workflow);
    if Pending(run.workflow).Some? {
      InvalidateKeepsBooks(run.workflow, Pending(run.workflow).value);
    }
  }

  lemma AskKeepsBooks(run: Run, source: Tree, stage: Stage, repair: bool, prerequisites: seq<Digest>,
                      feedback: seq<Feedback>)
    requires Bookkept(run.workflow) && NothingPending(run.workflow)
    ensures var asked := Ask(run, source, stage, repair, prerequisites, feedback);
            && Bookkept(asked.run.workflow) && Pending(asked.run.workflow) == Some(asked.action.request)
  {
    AppendKeepsBooks(run.workflow, NewRequest(run, source, stage, repair, prerequisites, feedback));
  }

  /** A decision changes nothing of the run but its requests and invalidations. */
  ghost predicate OnlyAsks(run: Run, now: Run) {
    && now == run.(workflow := now.workflow) && now.workflow.results == run.workflow.results
    && run.workflow.requests <= now.workflow.requests && run.workflow.invalidated <= now.workflow.invalidated
  }

  /** A decision that does not find its pending request current drops it and perhaps asks anew. */
  ghost predicate ShapedAnew(run: Run, source: Tree, decided: Decision)
    requires decided.Decided?
  {
    if decided.action.Native? then
      var request := decided.action.request;
      decided == Ask(DropPending(run), source, request.stage, request.repair, request.prerequisites, request.feedback)
    else decided.run == DropPending(run)
  }

  ghost predicate Shaped(run: Run, source: Tree, decided: Decision)
    requires decided.Decided?
  {
    || (decided.run == run && (decided.action.Native? ==> Pending(run.workflow) == Some(decided.action.request)))
    || ShapedAnew(run, source, decided)
  }

  lemma AttestedShape(run: Run, source: Tree, valid: set<string>, implementation: StageResult)
    ensures var decided := NextAttested(run, source, valid, implementation);
            && decided.Decided? && ShapedAnew(run, source, decided)
  {
  }

  lemma DirectShape(run: Run, source: Tree, valid: set<string>)
    ensures var decided := NextDirect(run, source, valid);
            decided.Decided? && Shaped(run, source, decided)
  {
    var implementation := LastImplementation(run.workflow.results);
    if implementation.Some? {
      AttestedShape(run, source, valid, implementation.value);
    }
  }

  lemma IntegratedShape(run: Run, source: Tree, valid: set<string>)
    requires run.integration.Some? && NextIntegrated(run, source, valid).Decided?
    ensures Shaped(run, source, NextIntegrated(run, source, valid))
  {
  }

  lemma NextShape(run: Run, source: Tree, valid: set<string>)
    requires NextAction(run, source, valid).Decided?
    ensures Shaped(run, source, NextAction(run, source, valid))
  {
    if run.integration.Some? {
      IntegratedShape(run, source, valid);
    } else {
      DirectShape(run, source, valid);
    }
  }

  lemma ShapeKeepsBooks(run: Run, source: Tree, decided: Decision)
    requires Bookkept(run.workflow) && decided.Decided? && Shaped(run, source, decided)
    ensures Bookkept(decided.run.workflow) && OnlyAsks(run, decided.run)
    ensures decided.action.Native? ==> Pending(decided.run.workflow) == Some(decided.action.request)
  {
    DropPendingKeepsBooks(run);
    if ShapedAnew(run, source, decided) && decided.action.Native? {
      var request := decided.action.request;
      AskKeepsBooks(DropPending(run), source, request.stage, request.repair, request.prerequisites, request.feedback);
    }
  }

  lemma NextKeepsBooks(run: Run, source: Tree, valid: set<string>)
    requires Bookkept(run.workflow) && NextAction(run, source, valid).Decided?
    ensures var decided := NextAction(run, source, valid);
            && Bookkept(decided.run.workflow) && OnlyAsks(run, decided.run)
            && (decided.action.Native? ==> Pending(decided.run.workflow) == Some(decided.action.request))
  {
    NextShape(run, source, valid);
    ShapeKeepsBooks(run, source, NextAction(run, source, valid));
  }

  /** Asking does not change the evidence a request is bound to. */
  lemma AskingKeepsEvidence(run: Run, now: Run)
    requires OnlyAsks(run, now)
    ensures EvidenceOf(now) == EvidenceOf(run) && CheckDigests(now) == CheckDigests(run)
  {
    assert CheckDigests(now) == CheckDigests(run);
  }

  // ----- Valid checks are counted by their ids -----

  /** Every declared check is valid exactly when their number is the number declared. */
  lemma ValidCount(run: Run, source: Tree, environment: string, logs: map<Log, string>)
    requires DistinctChecks(run.task)
    ensures var valid := ValidChecks(run, source, environment, logs);
            |valid| == |run.task.checks| <==>
            forall i | 0 <= i < |run.task.checks| :: CheckValid(run, run.task.checks[i].id, source, environment, logs)
  {
    var valid, ids := ValidChecks(run, source, environment, logs), Ids(run.task.checks);
    CountIds(run.task.checks);
    assert valid <= ids;
    if |valid| == |run.task.checks| {
      SubsetOfSameSize(valid, ids);
      forall i | 0 <= i < |run.task.checks|
        ensures CheckValid(run, run.task.checks[i].id, source, environment, logs)
      {
        assert run.task.checks[i].id in ids;
      }
    }
    if forall i | 0 <= i < |run.task.checks| :: CheckValid(run, run.task.checks[i].id, source, environment, logs) {
      assert valid == ids;
    }
  }

  ghost function Ids(checks: seq<CheckSpec>): set<string> {
    set i | 0 <= i < |checks| :: checks[i].id
  }

  lemma {:induction false} CountIds(checks: seq<CheckSpec>)
    requires forall i, j | 0 <= i < j < |checks| :: checks[i].id != checks[j].id
    ensures |Ids(checks)| == |checks|
  {
    if checks != [] {
      var front, last := checks[..|checks| - 1], checks[|checks| - 1];
      CountIds(front);
      assert Ids(checks) == Ids(front) + {last.id};
      assert last.id !in Ids(front);
    }
  }

  lemma SubsetOfSameSize<T>(small: set<T>, large: set<T>)
    requires small <= large && |small| == |large|
    ensures small == large
  {
    if !(large <= small) {
      var x :| x in large && x !in small;
      assert small <= large - {x};
      SubsetCount(small, large - {x});
    }
  }

  lemma SubsetCount<T>(small: set<T>, large: set<T>)
    requires small <= large
    ensures |small| <= |large|
  {
    if x :| x in small {
      SubsetCount(small - {x}, large - {x});
    }
  }

  // ----- Stability -----

  /** The check outcome seen by a decision names declared checks only. */
  ghost predicate Declared(run: Run, valid: set<string>) {
    DistinctChecks(run.task) && valid <= Ids(run.task.checks)
  }

  lemma NoneMissingIsAll(run: Run, valid: set<string>)
    requires Declared(run, valid)
    ensures FirstMissing(run.task, valid).None? <==> |valid| == |run.task.checks|
  {
    CountIds(run.task.checks);
    if FirstMissing(run.task, valid).None? {
      forall id | id in Ids(run.task.checks)
        ensures id in valid
      {
        var i :| 0 <= i < |run.task.checks| && run.task.checks[i].id == id;
        assert run.task.checks[i] in run.task.checks;
      }
      assert valid == Ids(run.task.checks);
    } else if |valid| == |run.task.checks| {
      SubsetOfSameSize(valid, Ids(run.task.checks));
      MissingIsDeclared(run.task, valid);
      assert false;
    }
  }

  lemma MissingIsDeclared(task: Task, valid: set<string>)
    ensures var missing := FirstMissing(task, valid);
            missing.Some? ==> missing.value.id in Ids(task.checks) && missing.value.id !in valid
  {
    var missing := FirstMissing(task, valid);
    if missing.Some? {
      var i :| 0 <= i < |task.checks| && task.checks[i] == missing.value;
    }
  }

  /** A request just asked for is the current one when asked for again. */
  lemma AskedIsCurrent(run: Run, source: Tree, valid: set<string>)
    requires Declared(run, valid)
    requires NextDirect(run, source, valid).action.Native? && NextDirect(run, source, valid).run != run
    ensures PendingIsCurrent(run, NextDirect(run, source, valid).action.request, source, valid)
  {
    NoneMissingIsAll(run, valid);
    AskingKeepsEvidence(run, DropPending(run));
  }

  lemma DirectIsStable(run: Run, source: Tree, valid: set<string>)
    requires Bookkept(run.workflow) && Declared(run, valid) && run.integration.None?
    requires NextDirect(run, source, valid).action.Native?
    ensures var decided := NextDirect(run, source, valid);
            NextDirect(decided.run, source, valid) == decided
  {
    var decided := NextDirect(run, source, valid);
    if decided.run != run {
      DirectShape(run, source, valid);
      ShapeKeepsBooks(run, source, decided);
      AskedIsCurrent(run, source, valid);
      AskingKeepsEvidence(run, decided.run);
    }
  }

  lemma IntegratedIsStable(run: Run, source: Tree, valid: set<string>)
    requires Bookkept(run.workflow) && run.integration.Some?
    requires NextIntegrated(run, source, valid).Decided? && NextIntegrated(run, source, valid).action.Native?
    ensures var decided := NextIntegrated(run, source, valid);
            NextIntegrated(decided.run, source, valid) == decided
  {
    var decided := NextIntegrated(run, source, valid);
    if decided.run != run {
      IntegratedShape(run, source, valid);
      ShapeKeepsBooks(run, source, decided);
      AskingKeepsEvidence(run, decided.run);
      AskedForReview(run, source, valid);
      ReviewAppendedStaysReady(run, decided.run, decided.action.request, source);
    }
  }

  /** What an integrated run asks for is a review of exactly this source, original and checks. */
  lemma AskedForReview(run: Run, source: Tree, valid: set<string>)
    requires run.integration.Some? && NextIntegrated(run, source, valid).Decided?
    requires NextIntegrated(run, source, valid).action.Native? && NextIntegrated(run, source, valid).run != run
    ensures var request := NextIntegrated(run, source, valid).action.request;
            && request.stage == Review && request.source == source && !request.repair
               && request.evidence == EvidenceOf(run)
            && request.prerequisites == IntegrationPrerequisites(run)
            && IntegrationSourceReady(run, source) && ReviewNeeded(run) && FirstMissing(run.task, valid).None?
            && NextIntegrated(run, source, valid).run.workflow.requests == run.workflow.requests + [request]
  {
    AskingKeepsEvidence(run, DropPending(run));
  }

  /** Appending a review leaves an integrated workflow intact and its source ready. */
  lemma ReviewAppendedStaysReady(run: Run, now: Run, request: Request, source: Tree)
    requires run.integration.Some? && IntegrationSourceReady(run, source) && ReviewNeeded(run) && OnlyAsks(run, now)
    requires request.stage == Review && now.workflow.requests == run.workflow.requests + [request]
    requires Pending(now.workflow) == Some(request)
    ensures IntegrationSourceReady(now, source) && ReviewNeeded(now) && !IntegrationReviewReady(now, source)
    ensures IntegrationPrerequisites(now) == IntegrationPrerequisites(run)
  {
    assert ReviewPaths(now) == ReviewPaths(run);
    AskingKeepsEvidence(run, now);
    var i :| 0 <= i < |now.workflow.requests| && now.workflow.requests[i] == request;
    assert Open(now.workflow, now.workflow.requests[i]);
  }

  /** When a native request is returned, asking again with nothing changed returns the same request and
      leaves the run as it is: implementation, review and integration review alike. */
  lemma NextIsStable(run: Run, source: Tree, valid: set<string>)
    requires Bookkept(run.workflow) && Declared(run, valid)
    requires NextAction(run, source, valid).Decided? && NextAction(run, source, valid).action.Native?
    ensures var decided := NextAction(run, source, valid);
            NextAction(decided.run, source, valid) == decided
  {
    if run.integration.Some? {
      IntegratedIsStable(run, source, valid);
    } else {
      DirectIsStable(run, source, valid);
    }
    NextShape(run, source, valid);
    ShapeKeepsBooks(run, source, NextAction(run, source, valid));
  }
}
