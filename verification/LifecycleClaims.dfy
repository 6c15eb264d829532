/** The single claim file and the status of the records. */
module LifecycleClaims {
  import opened Basics
  import opened Records
  import opened Workflows
  import opened WorkflowLaws
  import opened Lifecycle
  import opened LifecycleInvariant
  import opened LifecycleSaves

  predicate Live(run: Run) {
    run.status == Active || run.status == AwaitingNative
  }

  ghost predicate ClaimNamesRecord(s: State) {
    s.active.Some? ==> s.active.value in s.records
  }

  /** The claim names a run exactly when that run is active or awaits its handoff. */
  ghost predicate ClaimExact(s: State) {
    && ClaimNamesRecord(s)
    && forall id | id in s.records :: Live(s.records[id]) <==> s.active == Some(id)
  }

  // ----- Performing short plans -----

  lemma PerformOne(s: State, w: Write)
    ensures Perform(s, [w]) == Put(s, w)
  {
    assert [w][..0] == [];
  }

  lemma PerformSnoc(s: State, writes: seq<Write>, w: Write)
    ensures Perform(s, writes + [w]) == Put(Perform(s, writes), w)
  {
    assert (writes + [w])[..|writes|] == writes;
  }

  lemma PerformTwo(s: State, v: Write, w: Write)
    ensures Perform(s, [v, w]) == Put(Put(s, v), w)
  {
    PerformOne(s, v);
    PerformSnoc(s, [v], w);
  }

  lemma {:induction false} PerformAppend(s: State, first: seq<Write>, second: seq<Write>)
    ensures Perform(s, first + second) == Perform(Perform(s, first), second)
  {
    if second == [] {
      assert first + second == first;
    } else {
      var front, last := second[..|second| - 1], second[|second| - 1];
      PerformAppend(s, first, front);
      PerformSnoc(s, first + front, last);
      assert first + second == first + front + [last];
    }
  }

  // ----- The four effects a complete operation has on the claim -----

  /** One record changes; it ends live exactly when claimed, and no other record's claim is touched. */
  ghost predicate SettlesClaim(s: State, t: State, id: string) {
    && t.records.Keys == s.records.Keys + {id}
    && (forall other | other in s.records && other != id :: t.records[other] == s.records[other])
    && (Live(t.records[id]) <==> t.active == Some(id))
    && (t.active == s.active || (s.active in [None, Some(id)] && t.active in [None, Some(id)]))
  }

  lemma SettledStaysExact(s: State, t: State, id: string)
    requires ClaimExact(s) && SettlesClaim(s, t, id)
    ensures ClaimExact(t)
  {
  }

  lemma StaySettles(s: State, now: Run)
    requires ClaimExact(s) && now.task.id in s.records && Live(now) == Live(s.records[now.task.id])
    ensures SettlesClaim(s, Perform(s, [Save(now)]), now.task.id)
  {
    PerformOne(s, Save(now));
  }

  lemma LeaveSettles(s: State, now: Run)
    requires s.active == Some(now.task.id) && !Live(now)
    ensures SettlesClaim(s, Perform(s, [Save(now), Release]), now.task.id)
  {
    PerformTwo(s, Save(now), Release);
  }

  lemma EnterSettles(s: State, now: Run)
    requires s.active.None? && Live(now)
    ensures SettlesClaim(s, Perform(s, [Save(now), Claim(now.task.id)]), now.task.id)
  {
    PerformTwo(s, Save(now), Claim(now.task.id));
  }

  predicate Quiet(w: Write) {
    !w.Save? && !w.Claim? && !w.Release?
  }

  lemma {:induction false} QuietKeepsRecords(s: State, writes: seq<Write>)
    requires forall i | 0 <= i < |writes| :: Quiet(writes[i])
    ensures var t := Perform(s, writes);
            t.records == s.records && t.active == s.active
  {
    if writes != [] {
      QuietKeepsRecords(s, writes[..|writes| - 1]);
    }
  }

  lemma SaveTwiceSettles(s: State, first: Run, middle: seq<Write>, last: Run)
    requires ClaimExact(s) && first.task.id == last.task.id && last.task.id in s.records
    requires Live(last) == Live(s.records[last.task.id])
    requires forall i | 0 <= i < |middle| :: Quiet(middle[i])
    ensures SettlesClaim(s, Perform(s, [Save(first)] + middle + [Save(last)]), last.task.id)
  {
    PerformOne(s, Save(first));
    PerformAppend(s, [Save(first)], middle);
    QuietKeepsRecords(Put(s, Save(first)), middle);
    PerformSnoc(s, [Save(first)] + middle, Save(last));
  }

  /** The plan ends with the claim and the subject's record in agreement. */
  ghost predicate Settling(s: State, writes: seq<Write>) {
    writes == [] || exists id :: SettlesClaim(s, Perform(s, writes), id)
  }

  /** The plan saves one record again, as live as it was. */
  ghost predicate Stays(s: State, writes: seq<Write>) {
    writes == [] ||
    (|writes| == 1 && writes[0].Save? && writes[0].run.task.id in s.records
     && Live(writes[0].run) == Live(s.records[writes[0].run.task.id]))
  }

  lemma StayingSettles(s: State, writes: seq<Write>)
    requires ClaimExact(s) && Stays(s, writes)
    ensures Settling(s, writes)
  {
    if writes != [] {
      assert writes == [Save(writes[0].run)];
      StaySettles(s, writes[0].run);
    }
  }

  lemma BindStays(s: State, id: string, owner: string, handoff: Handoff)
    requires WellKeyed(s)
    ensures Stays(s, BindPlan(s, id, owner, handoff).writes) && Stays(s, VerifyPlan(s, id, owner).writes)
  {
  }

  lemma RoutingStays(s: State, id: string, owner: string, request: Request, evidence: ApiEvidence, handoff: Handoff)
    requires WellKeyed(s)
    ensures Stays(s, FallbackPlan(s, id, owner, request, evidence, handoff).writes)
  {
  }

  lemma RepairStays(s: State, id: string, owner: string, handoff: Handoff)
    requires WellKeyed(s)
    ensures Stays(s, RepairPlan(s, id, owner, handoff).writes)
  {
  }

  lemma NextSettles(s: State, id: string, owner: string)
    requires ClaimExact(s) && WellKeyed(s)
    ensures Settling(s, NextPlan(s, id, owner).writes)
  {
    var writes := NextPlan(s, id, owner).writes;
    if writes != [] {
      var run := s.records[id];
      var valid := Valid(s, run, s.files);
      NextShape(run, s.files, valid);
      StaySettles(s, NextAction(run, s.files, valid).run);
    }
  }

  lemma SubmitSettles(s: State, id: string, owner: string, response: Response)
    requires ClaimExact(s) && WellKeyed(s)
    ensures Settling(s, SubmitPlan(s, id, owner, response).writes)
  {
    var writes := SubmitPlan(s, id, owner, response).writes;
    if |writes| == 1 {
      StayingSettles(s, writes);
    } else if |writes| == 2 {
      assert writes == [Save(writes[0].run), Release];
      LeaveSettles(s, writes[0].run);
    }
  }

  lemma CheckSettles(s: State, id: string, owner: string, checkId: string, command: Command)
    requires ClaimExact(s) && WellKeyed(s)
    ensures Settling(s, CheckPlan(s, id, owner, checkId, command).writes)
  {
    var writes := CheckPlan(s, id, owner, checkId, command).writes;
    if |writes| == 1 {
      StayingSettles(s, writes);
    } else if |writes| == 5 {
      var run, now := writes[0].run, writes[4].run;
      assert writes == [Save(run)] + writes[1..4] + [Save(now)];
      SaveTwiceSettles(s, run, writes[1..4], now);
    }
  }

  lemma BeginSettles(s: State, task: Task)
    requires ClaimExact(s)
    ensures Settling(s, BeginPlan(s, task).writes)
  {
    if BeginPlan(s, task).writes != [] {
      EnterSettles(s, NewRun(s, task));
    }
  }

  lemma FinishSettles(s: State, id: string, owner: string, commit: Revision)
    requires ClaimExact(s) && WellKeyed(s)
    ensures Settling(s, FinishPlan(s, id, owner, commit).writes)
  {
    var writes := FinishPlan(s, id, owner, commit).writes;
    if |writes| == 1 {
      StayingSettles(s, writes);
    } else if |writes| == 2 {
      assert writes == [Save(writes[0].run), Release];
      LeaveSettles(s, writes[0].run);
    }
  }

  lemma PauseSettles(s: State, id: string, owner: string, reason: string)
    requires ClaimExact(s) && WellKeyed(s)
    ensures Settling(s, PausePlan(s, id, owner, reason).writes)
  {
    var writes := PausePlan(s, id, owner, reason).writes;
    if writes != [] {
      assert writes == [Save(writes[0].run), Release];
      LeaveSettles(s, writes[0].run);
    }
  }

  lemma ResumeSettles(s: State, id: string, owner: string)
    requires ClaimExact(s) && WellKeyed(s)
    ensures Settling(s, ResumePlan(s, id, owner).writes)
  {
    if ResumePlan(s, id, owner).writes != [] {
      EnterSettles(s, Noting(Reactivated(s.records[id]), Resumed));
    }
  }

  lemma SupersedeSettles(s: State, id: string, owner: string, successor: string)
    requires ClaimExact(s) && WellKeyed(s)
    ensures Settling(s, SupersedePlan(s, id, owner, successor).writes)
  {
    var writes := SupersedePlan(s, id, owner, successor).writes;
    if writes != [] {
      assert writes == [Save(writes[0].run)];
      StaySettles(s, writes[0].run);
    }
  }

  lemma RepairSettles(s: State, first: seq<Write>, now: Run)
    requires now.task.id in s.records && s.active in [None, Some(now.task.id)]
    requires first == if Live(now) then (if s.active.None? then [Claim(now.task.id)] else [])
                      else if s.active.None? then [] else [Release]
    ensures SettlesClaim(s, Perform(s, first + [Save(now)]), now.task.id)
  {
    if first != [] {
      PerformOne(s, first[0]);
    }
    PerformSnoc(s, first, Save(now));
  }

  /** Whatever crashes did to the claim before, a successful reconcile of a run makes the claim name it
      exactly when it is active or awaiting, and touches no other run. */
  lemma ReconcileRestores(s: State, id: string, owner: string, reason: string)
    requires WellKeyed(s) && ReconcilePlan(s, id, owner, reason).outcome.Done?
    ensures SettlesClaim(s, Perform(s, ReconcilePlan(s, id, owner, reason).writes), id)
  {
    var run := s.records[id];
    var now := ReconcilePlan(s, id, owner, reason).outcome.run;
    var first := if Live(now) then (if s.active.None? then [Claim(id)] else [])
                 else if s.active.None? then [] else [Release];
    assert ReconcilePlan(s, id, owner, reason).writes == first + [Save(now)];
    RepairSettles(s, first, now);
  }

  lemma {:induction false} ReplacementsAreQuiet(e: Integrated, scope: seq<Path>)
    ensures forall i | 0 <= i < |scope| :: Quiet(Replacements(e, scope)[i])
  {
    ReplacementsSaveNothing(e, scope);
  }

  lemma MarkSettles(s: State, before: seq<Write>, replacements: seq<Write>, now: Run)
    requires SettlesClaim(s, Perform(s, before), now.task.id) && Perform(s, before).active == Some(now.task.id)
             && Live(now)
    requires forall i | 0 <= i < |replacements| :: Quiet(replacements[i])
    ensures SettlesClaim(s, Perform(s, before + replacements), now.task.id)
    ensures SettlesClaim(s, Perform(s, before + replacements + [Save(now)]), now.task.id)
  {
    QuietKeepsRecords(Perform(s, before), replacements);
    PerformAppend(s, before, replacements);
    PerformSnoc(s, before + replacements, Save(now));
  }

  lemma ApplySettles(s: State, run: Run, before: seq<Write>, writes: seq<Write>)
    requires run.integration.Some? && run.status == Active && AppliedWrites(run, before, writes)
    requires SettlesClaim(s, Perform(s, before), run.task.id) && Perform(s, before).active == Some(run.task.id)
    ensures SettlesClaim(s, Perform(s, writes), run.task.id)
  {
    ReplacementsAreQuiet(run.integration.value, run.task.scope);
    MarkSettles(s, before, Replacements(run.integration.value, run.task.scope), Marked(run));
  }

  lemma AdoptSettles(s: State, run: Run, input: IntegrationInput, c: Checkout)
    requires ClaimExact(s) && run.integration.Some? && run.task.id == input.id
    requires input.id in s.records ==> s.records[input.id] == run
    requires s.active in [None, Some(input.id)]
    ensures Settling(s, AdoptPlan(s, run, input, c).writes)
  {
    if AdoptPlan(s, run, input, c).writes != [] && run.status == Active {
      if input.id in s.records {
        assert s.active == Some(input.id) && TakenUp(s, run) == [];
      } else {
        assert TakenUp(s, run) == [Save(run), Claim(input.id)];
        EnterSettles(s, run);
        PerformTwo(s, Save(run), Claim(input.id));
      }
      ApplyShape(s, run, input, c, TakenUp(s, run));
      ApplySettles(s, run, TakenUp(s, run), ApplyPlan(s, run, input, c, TakenUp(s, run)).writes);
    }
  }

  lemma IntegrateSettles(s: State, input: IntegrationInput, c: Checkout)
    requires ClaimExact(s) && WellKeyed(s)
    ensures Settling(s, IntegratePlan(s, input, c).writes)
  {
    if s.active in [None, Some(input.id)] {
      if input.id in s.records {
        if s.records[input.id].integration.Some? {
          AdoptSettles(s, s.records[input.id], input, c);
        }
      } else if PrepareIntegration(s, input, c).Ready? {
        PreparationMeets(s, input, c);
        AdoptSettles(s, PrepareIntegration(s, input, c).run, input, c);
      }
    }
  }

  lemma AuthoringSettles(s: State, op: Operation)
    requires ClaimExact(s) && WellKeyed(s) && Authors(op)
    ensures Settling(s, PlanOf(s, op).writes)
  {
    match op
    case BindHandoff(id, owner, handoff) =>
      BindStays(s, id, owner, handoff);
      StayingSettles(s, BindPlan(s, id, owner, handoff).writes);
    case VerifyRun(id, owner) =>
      BindStays(s, id, owner, Handoff(ORDINARY_ROUTE, ""));
      StayingSettles(s, VerifyPlan(s, id, owner).writes);
    case FallBackTo(id, owner, request, evidence, handoff) =>
      RoutingStays(s, id, owner, request, evidence, handoff);
      StayingSettles(s, FallbackPlan(s, id, owner, request, evidence, handoff).writes);
    case EscalateTo(id, owner, handoff) =>
      RepairStays(s, id, owner, handoff);
      StayingSettles(s, RepairPlan(s, id, owner, handoff).writes);
    case NextStep(id, owner) => NextSettles(s, id, owner);
    case RunDeclaredCheck(id, owner, checkId, command) => CheckSettles(s, id, owner, checkId, command);
    case SubmitResponse(id, owner, response) => SubmitSettles(s, id, owner, response);
  }

  /** A complete operation keeps the claim exact. */
  lemma OperationKeepsClaimExact(s: State, op: Operation)
    requires ClaimExact(s) && WellKeyed(s)
    ensures ClaimExact(Perform(s, PlanOf(s, op).writes))
  {
    if Authors(op) {
      AuthoringSettles(s, op);
    } else {
      match op {
        case BeginRun(task) => BeginSettles(s, task);
        case FinishRun(id, owner, commit) => FinishSettles(s, id, owner, commit);
        case PauseRun(id, owner, reason) => PauseSettles(s, id, owner, reason);
        case ResumeRun(id, owner) => ResumeSettles(s, id, owner);
        case ReconcileRun(id, owner, reason) =>
          if ReconcilePlan(s, id, owner, reason).outcome.Done? {
            ReconcileRestores(s, id, owner, reason);
          }
        case SupersedeRun(id, owner, successor) => SupersedeSettles(s, id, owner, successor);
        case IntegrateCandidate(input, checkout) => IntegrateSettles(s, input, checkout);
      }
    }
    SettlingStaysExact(s, PlanOf(s, op).writes);
  }

  lemma SettlingStaysExact(s: State, writes: seq<Write>)
    requires ClaimExact(s) && Settling(s, writes)
    ensures ClaimExact(Perform(s, writes))
  {
    if writes != [] {
      var id :| SettlesClaim(s, Perform(s, writes), id);
      SettledStaysExact(s, Perform(s, writes), id);
    }
  }

  // ----- Crashes -----

  /** Every claim a plan writes names a record that exists by then. */
  ghost predicate ClaimsRecorded(s: State, writes: seq<Write>) {
    forall i | 0 <= i < |writes| && writes[i].Claim? ::
      writes[i].id in s.records || exists j | 0 <= j < i :: writes[j].Save? && writes[j].run.task.id == writes[i].id
  }

  lemma {:induction false} PrefixKeepsClaimNamed(s: State, writes: seq<Write>)
    requires ClaimNamesRecord(s) && ClaimsRecorded(s, writes)
    ensures var t := Perform(s, writes);
            && ClaimNamesRecord(t) && s.records.Keys <= t.records.Keys
            && forall j | 0 <= j < |writes| && writes[j].Save? :: writes[j].run.task.id in t.records
  {
    if writes != [] {
      var front := writes[..|writes| - 1];
      assert ClaimsRecorded(s, front);
      PrefixKeepsClaimNamed(s, front);
      forall j | 0 <= j < |writes| && writes[j].Save?
        ensures writes[j].run.task.id in Perform(s, writes).records
      {
        assert j < |front| ==> writes[j] == front[j];
      }
    }
  }

  lemma PlanClaimsRecorded(s: State, op: Operation)
    requires WellKeyed(s)
    ensures ClaimsRecorded(s, PlanOf(s, op).writes)
  {
    if op.IntegrateCandidate? {
      IntegrateClaimsRecorded(s, op.input, op.checkout);
    } else if Authors(op) {
      AuthoringClaimsNothing(s, op);
    } else if op.BeginRun? && PlanOf(s, op).writes != [] {
      assert PlanOf(s, op).writes[0].Save?;
    }
  }

  ghost predicate ClaimsNothing(writes: seq<Write>) {
    forall i | 0 <= i < |writes| :: !writes[i].Claim?
  }

  lemma ResponsesClaimNothing(s: State, op: Operation)
    requires op.SubmitResponse? || op.FallBackTo? || op.EscalateTo?
    ensures ClaimsNothing(PlanOf(s, op).writes)
  {
  }

  lemma AuthoringClaimsNothing(s: State, op: Operation)
    requires Authors(op)
    ensures ClaimsNothing(PlanOf(s, op).writes)
  {
    if op.SubmitResponse? || op.FallBackTo? || op.EscalateTo? {
      ResponsesClaimNothing(s, op);
    }
  }

  lemma IntegrateClaimsRecorded(s: State, input: IntegrationInput, c: Checkout)
    requires WellKeyed(s)
    ensures ClaimsRecorded(s, IntegratePlan(s, input, c).writes)
  {
    if input.id in s.records {
      if s.records[input.id].integration.Some? {
        AdoptClaimsRecorded(s, s.records[input.id], input, c);
      }
    } else if PrepareIntegration(s, input, c).Ready? {
      PreparationMeets(s, input, c);
      AdoptClaimsRecorded(s, PrepareIntegration(s, input, c).run, input, c);
    }
  }

  lemma AdoptClaimsRecorded(s: State, run: Run, input: IntegrationInput, c: Checkout)
    requires run.integration.Some? && run.task.id == input.id
    ensures ClaimsRecorded(s, AdoptPlan(s, run, input, c).writes)
  {
    var before := TakenUp(s, run);
    ApplyShape(s, run, input, c, before);
    AppliedClaimsRecorded(s, run, before, ApplyPlan(s, run, input, c, before).writes);
  }

  lemma AppliedClaimsRecorded(s: State, run: Run, before: seq<Write>, writes: seq<Write>)
    requires run.integration.Some? && before == TakenUp(s, run) && AppliedWrites(run, before, writes)
    ensures ClaimsRecorded(s, writes)
  {
    ReplacementsSaveNothing(run.integration.value, run.task.scope);
    assert before <= writes;
    forall i | 0 <= i < |writes| && writes[i].Claim?
      ensures writes[i].id in s.records || exists j | 0 <= j < i ::
              writes[j].Save? && writes[j].run.task.id == writes[i].id
    {
      assert i < |before| && writes[i] == before[i];
      if run.task.id !in s.records {
        assert writes[0] == before[0] && i == 1;
      }
    }
  }
}
