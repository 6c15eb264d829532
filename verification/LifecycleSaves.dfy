/** Every plan saves only sound records, and none changes the identity of a record. */
module LifecycleSaves {
  import opened Basics
  import opened Integration
  import opened Records
  import opened Workflows
  import opened WorkflowLaws
  import opened Prerequisites
  import opened Lifecycle
  import opened LifecycleInvariant
  import opened LifecycleSteps

  datatype Operation =
    | BeginRun(task: Task)
    | BindHandoff(id: string, owner: string, handoff: Handoff)
    | NextStep(id: string, owner: string)
    | RunDeclaredCheck(id: string, owner: string, checkId: string, command: Command)
    | SubmitResponse(id: string, owner: string, response: Response)
    | FallBackTo(id: string, owner: string, request: Request, evidence: ApiEvidence, handoff: Handoff)
    | EscalateTo(id: string, owner: string, handoff: Handoff)
    | VerifyRun(id: string, owner: string)
    | FinishRun(id: string, owner: string, commit: Revision)
    | PauseRun(id: string, owner: string, reason: string)
    | ResumeRun(id: string, owner: string)
    | ReconcileRun(id: string, owner: string, reason: string)
    | SupersedeRun(id: string, owner: string, successor: string)
    | IntegrateCandidate(input: IntegrationInput, checkout: Checkout)

  function PlanOf(s: State, op: Operation): Plan {
    match op
    case BeginRun(task) => BeginPlan(s, task)
    case BindHandoff(id, owner, handoff) => BindPlan(s, id, owner, handoff)
    case NextStep(id, owner) => NextPlan(s, id, owner)
    case RunDeclaredCheck(id, owner, checkId, command) => CheckPlan(s, id, owner, checkId, command)
    case SubmitResponse(id, owner, response) => SubmitPlan(s, id, owner, response)
    case FallBackTo(id, owner, request, evidence, handoff) => FallbackPlan(s, id, owner, request, evidence, handoff)
    case EscalateTo(id, owner, handoff) => RepairPlan(s, id, owner, handoff)
    case VerifyRun(id, owner) => VerifyPlan(s, id, owner)
    case FinishRun(id, owner, commit) => FinishPlan(s, id, owner, commit)
    case PauseRun(id, owner, reason) => PausePlan(s, id, owner, reason)
    case ResumeRun(id, owner) => ResumePlan(s, id, owner)
    case ReconcileRun(id, owner, reason) => ReconcilePlan(s, id, owner, reason)
    case SupersedeRun(id, owner, successor) => SupersedePlan(s, id, owner, successor)
    case IntegrateCandidate(input, checkout) => IntegratePlan(s, input, checkout)
  }

  /** What the parsers and the candidate's own harness guarantee of an operation's inputs. */
  ghost predicate Trusted(op: Operation) {
    && (op.BeginRun? ==> DistinctChecks(op.task))
    && (op.IntegrateCandidate? ==>
          && (op.checkout.record.Some? ==> Sound(op.checkout.record.value))
          && (op.checkout.custody.declaredReads.None?
              ==> op.checkout.custody.base.Keys <= op.checkout.custody.readPaths))
  }

  // ----- What a saved record can be -----

  /** Status, checks, events and verdict may change; an unfinished record stays unfinished. */
  ghost predicate Kept(run: Run, now: Run) {
    SameHistory(run, now) && now.status != Complete && (now.status == run.status || now.status in [Paused, Superseded])
  }

  ghost predicate Bound(run: Run, now: Run) {
    run.status == AwaitingNative && exists handoff ::
      now == run.(handoffs := run.handoffs + [handoff], status := Active)
  }

  ghost predicate Proceeded(run: Run, now: Run) {
    run.status == Active && exists source, valid :: DecidesOn(NextAction(run, source, valid), now)
  }

  ghost predicate DecidesOn(decision: Decision, now: Run) {
    decision.Decided? && decision.run == now
  }

  ghost predicate Responded(s: State, run: Run, now: Run) {
    run.status == Active && now.status in [Active, Paused]
    && exists response | SubmitRefusal(s, run, s.files, response).None? ::
         SameHistory(Answering(run, ResultOf(run, s.files, response)), now)
  }

  ghost predicate Routed(run: Run, now: Run) {
    run.status == now.status == Active
    && exists request, native, failedApi | request in run.workflow.requests && Open(run.workflow, request) ::
         SameHistory(Reroute(run, request, native, failedApi), now)
  }

  ghost predicate Restored(run: Run, now: Run) {
    exists event :: now == Noting(Reactivated(run), event)
  }

  ghost predicate Noted(run: Run, now: Run) {
    run.status == Complete && exists reason :: now == Noting(run, Reconciled(reason))
  }

  function Finished(run: Run, commit: Revision): Run {
    run.(verdict := Some(true), commit := Some(commit), status := Complete)
  }

  ghost predicate FinishedBy(s: State, run: Run, now: Run) {
    exists commit :: FinishRefusal(s, run, commit).None? && Verdict(s, run, s.files) && now == Finished(run, commit)
  }

  function Marked(run: Run): Run
    requires run.integration.Some?
  {
    run.(integration := Some(run.integration.value.(prepared := true)))
  }

  ghost predicate Successor(s: State, run: Run, now: Run) {
    || Kept(run, now) || Bound(run, now) || Proceeded(run, now) || Responded(s, run, now) || Routed(run, now)
    || Restored(run, now) || Noted(run, now) || FinishedBy(s, run, now)
    || (run.status == Active && run.integration.Some? && now == Marked(run))
  }

  /** What preparation has checked when it succeeds. */
  ghost predicate PreparationMet(s: State, input: IntegrationInput, c: Checkout, original: Run, after: Tree) {
    && c.record == Some(original) && original == input.expected && original.task.id == input.id
    && s.files == s.head.tree && CandidateValid(original, c.source, s.environment, c.logs)
    && (input.revalidate.Some? ==> input.revalidate.value == Pin(s.head, s.files))
    && after == Merge(s.files, Elements(original.task.scope), c.source)
  }

  ghost predicate PreparedBy(s: State, input: IntegrationInput, c: Checkout, original: Run, after: Tree, now: Run) {
    && PreparationMet(s, input, c, original, after) && Sound(original)
    && (now == Prepared(s, input, c, original, after) || now == Marked(Prepared(s, input, c, original, after)))
  }

  ghost predicate NewRecord(s: State, now: Run) {
    || (DistinctChecks(now.task) && now == NewRun(s, now.task))
    || (exists input, c, original, after :: PreparedBy(s, input, c, original, after, now))
  }

  ghost predicate SavesAllowed(s: State, writes: seq<Write>) {
    forall i | 0 <= i < |writes| && writes[i].Save? :: Allowed(s, writes[i].run)
  }

  ghost predicate Allowed(s: State, run: Run) {
    if run.task.id in s.records then Successor(s, s.records[run.task.id], run) else NewRecord(s, run)
  }

  // ----- Every plan saves only those -----

  lemma BeginSaves(s: State, task: Task)
    requires WellKeyed(s) && DistinctChecks(task)
    ensures SavesAllowed(s, BeginPlan(s, task).writes)
  {
  }

  lemma BindSaves(s: State, id: string, owner: string, handoff: Handoff)
    requires WellKeyed(s)
    ensures SavesAllowed(s, BindPlan(s, id, owner, handoff).writes)
  {
    if id in s.records {
      var run := s.records[id];
      assert run.status == AwaitingNative ==> Bound(run, run.(handoffs := run.handoffs + [handoff], status := Active));
    }
  }

  lemma DecisionProceeds(run: Run, source: Tree, valid: set<string>)
    requires run.status == Active && NextAction(run, source, valid).Decided?
    ensures var now := NextAction(run, source, valid).run;
            Proceeded(run, now) && now.task == run.task
  {
    NextShape(run, source, valid);
    assert DecidesOn(NextAction(run, source, valid), NextAction(run, source, valid).run);
  }

  lemma NextSaves(s: State, id: string, owner: string)
    requires WellKeyed(s)
    ensures SavesAllowed(s, NextPlan(s, id, owner).writes)
  {
    var writes := NextPlan(s, id, owner).writes;
    if writes != [] {
      DecisionProceeds(s.records[id], s.files, Valid(s, s.records[id], s.files));
    }
  }

  lemma CheckSaves(s: State, id: string, owner: string, checkId: string, command: Command)
    requires WellKeyed(s)
    ensures SavesAllowed(s, CheckPlan(s, id, owner, checkId, command).writes)
  {
  }

  lemma SubmitSaves(s: State, id: string, owner: string, response: Response)
    requires WellKeyed(s)
    ensures SavesAllowed(s, SubmitPlan(s, id, owner, response).writes)
  {
    if id in s.records && s.records[id].status == Active && SubmitRefusal(s, s.records[id], s.files, response).None? {
      var writes := SubmitPlan(s, id, owner, response).writes;
      assert writes != [] ==> Responded(s, s.records[id], writes[0].run);
    }
  }

  lemma FallbackSaves(s: State, id: string, owner: string, request: Request, evidence: ApiEvidence, native: Handoff)
    requires WellKeyed(s)
    ensures SavesAllowed(s, FallbackPlan(s, id, owner, request, evidence, native).writes)
  {
    var writes := FallbackPlan(s, id, owner, request, evidence, native).writes;
    if writes != [] {
      var run := s.records[id];
      assert SameHistory(Reroute(run, request, native, Some(evidence)), writes[0].run);
      assert Routed(run, writes[0].run);
    }
  }

  lemma RepairSaves(s: State, id: string, owner: string, native: Handoff)
    requires WellKeyed(s)
    ensures SavesAllowed(s, RepairPlan(s, id, owner, native).writes)
  {
    var writes := RepairPlan(s, id, owner, native).writes;
    if writes != [] {
      var run := s.records[id];
      assert SameHistory(Reroute(run, Pending(run.workflow).value, native, None), writes[0].run);
      assert Routed(run, writes[0].run);
    }
  }

  lemma VerifySaves(s: State, id: string, owner: string)
    requires WellKeyed(s)
    ensures SavesAllowed(s, VerifyPlan(s, id, owner).writes)
  {
  }

  lemma PauseSaves(s: State, id: string, owner: string, reason: string)
    requires WellKeyed(s)
    ensures SavesAllowed(s, PausePlan(s, id, owner, reason).writes)
  {
  }

  lemma SupersedeSaves(s: State, id: string, owner: string, successor: string)
    requires WellKeyed(s)
    ensures SavesAllowed(s, SupersedePlan(s, id, owner, successor).writes)
  {
  }

  lemma ResumeSaves(s: State, id: string, owner: string)
    requires WellKeyed(s)
    ensures SavesAllowed(s, ResumePlan(s, id, owner).writes)
  {
    if id in s.records {
      assert Restored(s.records[id], Noting(Reactivated(s.records[id]), Resumed));
    }
  }

  lemma ReconcileSaves(s: State, id: string, owner: string, reason: string)
    requires WellKeyed(s)
    ensures SavesAllowed(s, ReconcilePlan(s, id, owner, reason).writes)
  {
    if id in s.records {
      assert Restored(s.records[id], Noting(Reactivated(s.records[id]), Reconciled(reason)));
      assert s.records[id].status == Complete ==> Noted(s.records[id], Noting(s.records[id], Reconciled(reason)));
    }
  }

  lemma FinishSaves(s: State, id: string, owner: string, commit: Revision)
    requires WellKeyed(s)
    ensures SavesAllowed(s, FinishPlan(s, id, owner, commit).writes)
  {
    if id in s.records {
      var run := s.records[id];
      assert FinishRefusal(s, run, commit).None? && Verdict(s, run, s.files)
             ==> FinishedBy(s, run, Finished(run, commit));
    }
  }

  lemma {:induction false} ReplacementsSaveNothing(e: Integrated, scope: seq<Path>)
    ensures forall i | 0 <= i < |scope| :: Replacements(e, scope)[i].Replace?
  {
    if scope != [] {
      ReplacementsSaveNothing(e, scope[..|scope| - 1]);
    }
  }

  /** Applying stops before any replacement, after all of them, or once the phase is saved. */
  ghost predicate AppliedWrites(run: Run, before: seq<Write>, writes: seq<Write>)
    requires run.integration.Some?
  {
    var replacements := Replacements(run.integration.value, run.task.scope);
    writes == before || writes == before + replacements || writes == before + replacements + [Save(Marked(run))]
  }

  lemma ApplyShape(s: State, run: Run, input: IntegrationInput, c: Checkout, before: seq<Write>)
    requires run.integration.Some?
    ensures AppliedWrites(run, before, ApplyPlan(s, run, input, c, before).writes)
  {
  }

  ghost predicate SavesMeet(writes: seq<Write>, p: Run -> bool) {
    forall i | 0 <= i < |writes| && writes[i].Save? :: p(writes[i].run)
  }

  lemma AppliedMeets(before: seq<Write>, replacements: seq<Write>, now: Run, p: Run -> bool)
    requires SavesMeet(before, p) && p(now) && forall i | 0 <= i < |replacements| :: replacements[i].Replace?
    ensures SavesMeet(before + replacements, p) && SavesMeet(before + replacements + [Save(now)], p)
  {
  }

  lemma ApplySaves(s: State, run: Run, before: seq<Write>, writes: seq<Write>)
    requires SavesAllowed(s, before) && run.integration.Some? && Allowed(s, Marked(run))
             && AppliedWrites(run, before, writes)
    ensures SavesAllowed(s, writes)
  {
    ReplacementsSaveNothing(run.integration.value, run.task.scope);
    AppliedMeets(before, Replacements(run.integration.value, run.task.scope), Marked(run), now => Allowed(s, now));
  }

  lemma PreparationMeets(s: State, input: IntegrationInput, c: Checkout)
    requires PrepareIntegration(s, input, c).Ready?
    ensures c.record.Some?
    ensures var original, after := c.record.value, Merge(s.files, Elements(c.record.value.task.scope), c.source);
            && PreparationMet(s, input, c, original, after)
            && PrepareIntegration(s, input, c).run == Prepared(s, input, c, original, after)
  {
  }

  lemma PreparedAllowed(s: State, input: IntegrationInput, c: Checkout, original: Run, after: Tree)
    requires PreparationMet(s, input, c, original, after) && input.id !in s.records && Sound(original)
    ensures var run := Prepared(s, input, c, original, after);
            run.task.id == input.id && Allowed(s, run) && Allowed(s, Marked(run))
  {
    var run := Prepared(s, input, c, original, after);
    assert PreparedBy(s, input, c, original, after, run) && PreparedBy(s, input, c, original, after, Marked(run));
  }

  lemma MarkedAllowed(s: State, run: Run)
    requires run.task.id in s.records && s.records[run.task.id] == run && run.status == Active && run.integration.Some?
    ensures Allowed(s, Marked(run))
  {
  }

  lemma TakingUpSaves(s: State, run: Run)
    requires run.task.id in s.records || Allowed(s, run)
    ensures SavesAllowed(s, TakenUp(s, run))
  {
  }

  lemma AdoptSaves(s: State, run: Run, input: IntegrationInput, c: Checkout)
    requires run.integration.Some? && run.task.id == input.id
    requires input.id in s.records ==> s.records[input.id] == run
    requires input.id !in s.records ==> Allowed(s, run) && Allowed(s, Marked(run))
    ensures SavesAllowed(s, AdoptPlan(s, run, input, c).writes)
  {
    if run.status == Active {
      TakingUpSaves(s, run);
      if input.id in s.records {
        MarkedAllowed(s, run);
      }
      ApplyShape(s, run, input, c, TakenUp(s, run));
      ApplySaves(s, run, TakenUp(s, run), ApplyPlan(s, run, input, c, TakenUp(s, run)).writes);
    }
  }

  lemma IntegrateSaves(s: State, input: IntegrationInput, c: Checkout)
    requires WellKeyed(s) && (c.record.Some? ==> Sound(c.record.value))
    ensures SavesAllowed(s, IntegratePlan(s, input, c).writes)
  {
    if input.id in s.records {
      if s.records[input.id].integration.Some? {
        AdoptSaves(s, s.records[input.id], input, c);
      }
    } else if PrepareIntegration(s, input, c).Ready? {
      PreparationMeets(s, input, c);
      PreparedAllowed(s, input, c, c.record.value, Merge(s.files, Elements(c.record.value.task.scope), c.source));
      AdoptSaves(s, PrepareIntegration(s, input, c).run, input, c);
    }
  }

  /** The operations that author, check and review a claimed run. */
  predicate Authors(op: Operation) {
    op.BindHandoff? || op.NextStep? || op.RunDeclaredCheck? || op.SubmitResponse? || op.FallBackTo? || op.EscalateTo?
      || op.VerifyRun?
  }

  lemma AuthoringSaves(s: State, op: Operation)
    requires WellKeyed(s) && Authors(op)
    ensures SavesAllowed(s, PlanOf(s, op).writes)
  {
    match op
    case BindHandoff(id, owner, handoff) => BindSaves(s, id, owner, handoff);
    case NextStep(id, owner) => NextSaves(s, id, owner);
    case RunDeclaredCheck(id, owner, checkId, command) => CheckSaves(s, id, owner, checkId, command);
    case SubmitResponse(id, owner, response) => SubmitSaves(s, id, owner, response);
    case FallBackTo(id, owner, request, evidence, handoff) => FallbackSaves(s, id, owner, request, evidence, handoff);
    case EscalateTo(id, owner, handoff) => RepairSaves(s, id, owner, handoff);
    case VerifyRun(id, owner) => VerifySaves(s, id, owner);
  }

  lemma PlanSaves(s: State, op: Operation)
    requires WellKeyed(s) && Trusted(op)
    ensures SavesAllowed(s, PlanOf(s, op).writes)
  {
    if Authors(op) {
      AuthoringSaves(s, op);
      return;
    }
    match op
    case BeginRun(task) => BeginSaves(s, task);
    case FinishRun(id, owner, commit) => FinishSaves(s, id, owner, commit);
    case PauseRun(id, owner, reason) => PauseSaves(s, id, owner, reason);
    case ResumeRun(id, owner) => ResumeSaves(s, id, owner);
    case ReconcileRun(id, owner, reason) => ReconcileSaves(s, id, owner, reason);
    case SupersedeRun(id, owner, successor) => SupersedeSaves(s, id, owner, successor);
    case IntegrateCandidate(input, checkout) => IntegrateSaves(s, input, checkout);
  }

  // ----- Those keep a record sound -----

  lemma LastWhereFrame<T>(items: seq<T>, item: T, p: T -> bool)
    requires !p(item)
    ensures LastWhere(items + [item], p) == LastWhere(items, p)
  {
    assert (items + [item])[..|items|] == items;
  }

  /** Readiness does not depend on status, events, verdict or commit. */
  lemma ReadyFrame(run: Run, now: Run, source: Tree)
    requires now == run.(status := now.status, events := now.events, verdict := now.verdict, commit := now.commit)
    ensures WorkflowReady(now, source) == WorkflowReady(run, source)
  {
    assert CheckDigests(now) == CheckDigests(run);
    if run.integration.Some? {
      IntactFrame(run, now);
    }
  }

  lemma NotedStaysDelivered(run: Run, reason: string)
    requires Delivered(run)
    ensures Delivered(Noting(run, Reconciled(reason)))
  {
    var now := Noting(run, Reconciled(reason));
    ReadyFrame(run, now, FinishedSource(run));
    forall i | 0 <= i < |run.task.checks|
      ensures LatestPassed(now, run.task.checks[i].id, FinishedSource(run))
    {
      var id := run.task.checks[i].id;
      LastWhereFrame(run.events, Reconciled(reason), (event: Event) => event.CheckStart? && event.id == id);
      assert LatestPassed(run, id, FinishedSource(run));
    }
  }

  /** An exact commit within the scope, of a working tree that agrees with it there, is the base with the
      scope replaced by that tree. */
  lemma CommitIsMerge(base: Tree, files: Tree, scope: set<Path>, commit: Tree)
    requires Changed(base, commit) <= scope
    requires forall path | path in scope :: Get(files, path) == Get(commit, path)
    ensures commit == Merge(base, scope, files)
  {
    forall path
      ensures Get(commit, path) == Get(Merge(base, scope, files), path)
    {
      MergeGet(base, scope, files, path);
      if path !in scope {
        assert path !in Changed(base, commit);
      }
    }
    SameGetsSameTree(commit, Merge(base, scope, files));
  }

  lemma FinishDelivers(s: State, run: Run, commit: Revision)
    requires FinishRefusal(s, run, commit).None? && Verdict(s, run, s.files)
    ensures Delivered(Finished(run, commit))
    ensures FinishedSource(run) == s.files
  {
    var complete := Finished(run, commit);
    CommitIsMerge(run.baseCommit.tree, s.files, Elements(run.task.scope), commit.tree);
    ReadyFrame(run, complete, s.files);
    forall i | 0 <= i < |run.task.checks|
      ensures LatestPassed(complete, run.task.checks[i].id, s.files)
    {
      assert run.task.checks[i].id in Valid(s, run, s.files);
    }
  }

  lemma PreparedHistory(s: State, input: IntegrationInput, c: Checkout, original: Run, after: Tree)
    requires PreparationMet(s, input, c, original, after) && Sound(original)
    ensures IntegratedHistory(Prepared(s, input, c, original, after))
  {
    var run := Prepared(s, input, c, original, after);
    var e := run.integration.value;
    assert run.workflow == e.original.workflow;
    assert EvidenceRecorded(run, e) && OriginalPreserved(run, e) && WorkflowIntact(run);
  }

  lemma MarkedPrepared(run: Run)
    requires IntegratedHistory(run)
    ensures IntegratedHistory(Marked(run))
  {
    var now := Marked(run);
    IntactFrame(run, now);
    assert AppendedReviews(now, now.integration.value) by {
      assert AppendedReviews(run, run.integration.value);
    }
  }

  lemma MarkedSound(run: Run)
    requires Sound(run) && run.integration.Some? && run.status == Active
    ensures Sound(Marked(run))
  {
    MarkedPrepared(run);
  }

  lemma KeptSound(run: Run, now: Run)
    requires Sound(run) && Kept(run, now)
    ensures Sound(now)
  {
    HistoryFrame(run, now);
  }

  lemma BoundSound(run: Run, now: Run)
    requires Sound(run) && Bound(run, now)
    ensures Sound(now) && SameIdentity(run, now)
  {
    DirectGrows(run, now);
  }

  lemma ProceededSound(run: Run, now: Run)
    requires Sound(run) && Proceeded(run, now)
    ensures Sound(now) && SameIdentity(run, now)
  {
    var source, valid :| DecidesOn(NextAction(run, source, valid), now);
    NextKeepsHistory(run, source, valid);
  }

  lemma RespondedSound(s: State, run: Run, now: Run)
    requires Sound(run) && Responded(s, run, now)
    ensures Sound(now) && SameIdentity(run, now)
  {
    var response :| SubmitRefusal(s, run, s.files, response).None?
                    && SameHistory(Answering(run, ResultOf(run, s.files, response)), now);
    SubmitKeepsHistory(s, run, s.files, response);
    HistoryFrame(Answering(run, ResultOf(run, s.files, response)), now);
  }

  lemma RoutedSound(run: Run, now: Run)
    requires Sound(run) && Routed(run, now)
    ensures Sound(now) && SameIdentity(run, now)
  {
    var request, native, failedApi :| request in run.workflow.requests && Open(run.workflow, request)
                                      && SameHistory(Reroute(run, request, native, failedApi), now);
    RerouteKeepsHistory(run, request, native, failedApi);
    HistoryFrame(Reroute(run, request, native, failedApi), now);
  }

  lemma RestoredSound(run: Run, now: Run)
    requires Sound(run) && Restored(run, now)
    ensures Sound(now) && SameIdentity(run, now)
  {
    ReactivatingKeepsHistory(run);
    HistoryFrame(Reactivated(run), now);
  }

  lemma NotedSound(run: Run, now: Run)
    requires Sound(run) && Noted(run, now)
    ensures Sound(now) && SameIdentity(run, now)
  {
    var reason :| now == Noting(run, Reconciled(reason));
    HistoryFrame(run, now);
    NotedStaysDelivered(run, reason);
  }

  lemma FinishedSound(s: State, run: Run, now: Run)
    requires Sound(run) && FinishedBy(s, run, now)
    ensures Sound(now) && SameIdentity(run, now)
  {
    var commit :| FinishRefusal(s, run, commit).None? && Verdict(s, run, s.files) && now == Finished(run, commit);
    HistoryFrame(run, now);
    FinishDelivers(s, run, commit);
  }

  lemma SuccessorSound(s: State, run: Run, now: Run)
    requires Sound(run) && Successor(s, run, now)
    ensures Sound(now) && SameIdentity(run, now)
  {
    if Kept(run, now) {
      KeptSound(run, now);
    } else if Bound(run, now) {
      BoundSound(run, now);
    } else if Proceeded(run, now) {
      ProceededSound(run, now);
    } else if Responded(s, run, now) {
      RespondedSound(s, run, now);
    } else if Routed(run, now) {
      RoutedSound(run, now);
    } else if Restored(run, now) {
      RestoredSound(run, now);
    } else if Noted(run, now) {
      NotedSound(run, now);
    } else if FinishedBy(s, run, now) {
      FinishedSound(s, run, now);
    } else {
      MarkedSound(run);
    }
  }

  lemma PreparedBySound(s: State, input: IntegrationInput, c: Checkout, original: Run, after: Tree, now: Run)
    requires PreparedBy(s, input, c, original, after, now)
    ensures Sound(now)
  {
    PreparedHistory(s, input, c, original, after);
    MarkedSound(Prepared(s, input, c, original, after));
  }

  lemma BegunSound(s: State, task: Task)
    requires DistinctChecks(task)
    ensures Sound(NewRun(s, task))
  {
  }

  lemma NewRecordSound(s: State, now: Run)
    requires NewRecord(s, now)
    ensures Sound(now)
  {
    if DistinctChecks(now.task) && now == NewRun(s, now.task) {
      BegunSound(s, now.task);
    } else {
      var input, c, original, after :| PreparedBy(s, input, c, original, after, now);
      PreparedBySound(s, input, c, original, after, now);
    }
  }

  /** Every record a plan saves is sound, and keeps the identity of the record it replaces. */
  lemma PlanSavesSound(s: State, op: Operation)
    requires SoundRecords(s) && Trusted(op)
    ensures SavesSound(s, PlanOf(s, op).writes)
  {
    PlanSaves(s, op);
    var writes := PlanOf(s, op).writes;
    forall i | 0 <= i < |writes| && writes[i].Save?
      ensures Savable(s, writes[i].run)
    {
      AllowedIsSavable(s, writes[i].run);
    }
  }

  lemma AllowedIsSavable(s: State, now: Run)
    requires SoundRecords(s) && Allowed(s, now)
    ensures Savable(s, now)
  {
    if now.task.id in s.records {
      assert Soundness()(RecordAt(s, now.task.id));
      SuccessorSound(s, s.records[now.task.id], now);
    } else {
      NewRecordSound(s, now);
    }
  }

  // ----- Any prefix of the writes -----

  ghost predicate Identified(s: State, t: State) {
    forall id | id in s.records :: id in t.records && SameIdentity(s.records[id], t.records[id])
  }

  lemma SameRecordsKeepAll(s: State, t: State, p: Run -> bool)
    requires AllRecords(s, p) && t.records == s.records
    ensures AllRecords(t, p)
  {
    forall id | id in t.records
      ensures p(RecordAt(t, id))
    {
      assert p(RecordAt(s, id));
    }
  }

  lemma PutKeepsAll(s: State, w: Write, p: Run -> bool)
    requires AllRecords(s, p) && (w.Save? ==> p(w.run))
    ensures AllRecords(Put(s, w), p)
  {
    forall id | id in Put(s, w).records
      ensures p(RecordAt(Put(s, w), id))
    {
      assert id in s.records ==> p(RecordAt(s, id));
    }
  }

  lemma {:induction false} PerformKeepsAll(s: State, writes: seq<Write>, p: Run -> bool)
    requires AllRecords(s, p) && forall i | 0 <= i < |writes| && writes[i].Save? :: p(writes[i].run)
    ensures AllRecords(Perform(s, writes), p)
  {
    if writes != [] {
      PerformKeepsAll(s, writes[..|writes| - 1], p);
      PutKeepsAll(Perform(s, writes[..|writes| - 1]), writes[|writes| - 1], p);
    }
  }

  /** A save replaces a record only by one with the same identity. */
  ghost predicate SavesIdentify(s: State, writes: seq<Write>) {
    forall i | 0 <= i < |writes| && writes[i].Save? && writes[i].run.task.id in s.records ::
      SameIdentity(s.records[writes[i].run.task.id], writes[i].run)
  }

  lemma SoundSavesIdentify(s: State, writes: seq<Write>)
    requires SavesSound(s, writes)
    ensures SavesIdentify(s, writes)
  {
  }

  lemma {:induction false} PerformIdentifies(s: State, writes: seq<Write>)
    requires SavesIdentify(s, writes)
    ensures Identified(s, Perform(s, writes))
  {
    if writes != [] {
      var front := writes[..|writes| - 1];
      assert forall i | 0 <= i < |front| :: front[i] == writes[i];
      PerformIdentifies(s, front);
    }
  }

  /** Wherever a crash falls among the writes, every record is sound. */
  lemma PrefixKeepsRecords(s: State, writes: seq<Write>)
    requires SoundRecords(s) && SavesSound(s, writes)
    ensures SoundRecords(Perform(s, writes)) && Identified(s, Perform(s, writes))
  {
    PerformKeepsAll(s, writes, Soundness());
    PerformIdentifies(s, writes);
  }
}
