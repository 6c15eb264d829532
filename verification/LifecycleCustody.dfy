/** Claims and reservations over whole runs: cohorts, integrations and direct work on one canonical tree. */
module LifecycleCustody {
  import opened Basics
  import opened Integration
  import opened Records
  import opened Reservations
  import opened Lifecycle
  import opened LifecycleInvariant
  import opened LifecycleSaves
  import opened LifecycleClaims

  // ----- Admission of a cohort -----

  /** `assertCandidateAdmission`: no claim, or a prepared integration that the tasks stay clear of. */
  predicate CandidatesAdmitted(s: State, tasks: seq<Reservation>) {
    s.active.Some? ==>
      s.active.value in s.records
      && var run := s.records[s.active.value];
         && run.integration.Some? && run.integration.value.prepared && s.head == run.baseCommit
         && NoLiveRuntime(Elements(run.task.scope))
         && forall i | 0 <= i < |tasks| ::
              MayRunBeside(tasks[i], run.task.id, Elements(run.task.scope), run.integration.value.custody.resources)
  }

  predicate PoolAdmitted(s: State, tasks: seq<Reservation>) {
    s.kind == Main && CandidatesAdmitted(s, tasks) && Admissible(Reservations.Active(s.pools, s.busy), tasks)
  }

  // ----- Runs of the whole system -----

  /** An operation cut after some of its writes, a pool step, or a change of the surroundings. */
  datatype Happening =
    | Operate(op: Operation, cut: nat)
    | AdmitPool(tasks: seq<Reservation>)
    | SettleOutcome(pool: nat, id: string, retained: Option<string>)
    | Edit(files: Tree)
    | MoveHead(head: Revision)
    | ChangeEnvironment(environment: string)
    | ChangeLogs(logs: map<Log, string>)
    | ChangeBusy(busy: set<string>)

  function Cut(writes: seq<Write>, count: nat): seq<Write> {
    if count <= |writes| then writes[..count] else writes
  }

  function After(s: State, h: Happening): State {
    match h
    case Operate(op, cut) => Perform(s, Cut(PlanOf(s, op).writes, cut))
    case AdmitPool(tasks) => if PoolAdmitted(s, tasks) then s.(pools := s.pools + [Elements(tasks)]) else s
    case SettleOutcome(pool, id, retained) =>
      if pool < |s.pools| then s.(pools := s.pools[pool := SettleRow(s.pools[pool], id, retained)]) else s
    case Edit(files) => s.(files := files)
    case MoveHead(head) => s.(head := head)
    case ChangeEnvironment(environment) => s.(environment := environment)
    case ChangeLogs(logs) => s.(logs := logs)
    case ChangeBusy(busy) => s.(busy := busy)
  }

  predicate Uncut(s: State, h: Happening) {
    h.Operate? ==> |PlanOf(s, h.op).writes| <= h.cut
  }

  ghost predicate Possible(h: Happening) {
    && (h.Operate? ==> Trusted(h.op))
    && (h.AdmitPool? ==> Fresh(h.tasks))
  }

  function RunOf(s: State, trace: seq<Happening>): State {
    if trace == [] then s else After(RunOf(s, trace[..|trace| - 1]), trace[|trace| - 1])
  }

  ghost predicate AllPossible(trace: seq<Happening>) {
    forall i | 0 <= i < |trace| :: Possible(trace[i])
  }

  predicate CrashFree(s: State, trace: seq<Happening>) {
    trace == [] ||
    (CrashFree(s, trace[..|trace| - 1]) && Uncut(RunOf(s, trace[..|trace| - 1]), trace[|trace| - 1]))
  }

  predicate Initial(s: State) {
    s.records == map[] && s.names == [] && s.active.None? && s.pools == []
  }

  // ----- Records and claims over every run, with crashes -----

  ghost predicate Durable(s: State) {
    SoundRecords(s) && ClaimNamesRecord(s)
  }

  lemma CutIsPrefix(s: State, writes: seq<Write>, count: nat)
    ensures SavesSound(s, writes) ==> SavesSound(s, Cut(writes, count))
    ensures ClaimsRecorded(s, writes) ==> ClaimsRecorded(s, Cut(writes, count))
  {
    var cut := Cut(writes, count);
    assert forall i | 0 <= i < |cut| :: cut[i] == writes[i];
    if ClaimsRecorded(s, writes) {
      forall i | 0 <= i < |cut| && cut[i].Claim?
        ensures cut[i].id in s.records || exists j | 0 <= j < i :: cut[j].Save? && cut[j].run.task.id == cut[i].id
      {
        if cut[i].id !in s.records {
          var j :| 0 <= j < i && writes[j].Save? && writes[j].run.task.id == writes[i].id;
          assert cut[j].Save?;
        }
      }
    }
  }

  lemma WritesStayDurable(s: State, writes: seq<Write>)
    requires Durable(s) && SavesSound(s, writes) && ClaimsRecorded(s, writes)
    ensures Durable(Perform(s, writes)) && Identified(s, Perform(s, writes))
  {
    PrefixKeepsRecords(s, writes);
    PrefixKeepsClaimNamed(s, writes);
  }

  lemma OperationStaysDurable(s: State, op: Operation, cut: nat)
    requires Durable(s) && Trusted(op)
    ensures Durable(After(s, Operate(op, cut))) && Identified(s, After(s, Operate(op, cut)))
  {
    PlanSavesSound(s, op);
    PlanClaimsRecorded(s, op);
    CutIsPrefix(s, PlanOf(s, op).writes, cut);
    WritesStayDurable(s, Cut(PlanOf(s, op).writes, cut));
  }

  /** Records stay sound and keep their identity, wherever a crash falls. */
  lemma StepStaysDurable(s: State, h: Happening)
    requires Durable(s) && Possible(h)
    ensures Durable(After(s, h)) && Identified(s, After(s, h))
  {
    if h.Operate? {
      OperationStaysDurable(s, h.op, h.cut);
    } else {
      SameRecordsDurable(s, After(s, h));
    }
  }

  lemma SameRecordsDurable(s: State, t: State)
    requires Durable(s) && t.records == s.records && t.active == s.active
    ensures Durable(t) && Identified(s, t)
  {
    SameRecordsKeepAll(s, t, Soundness());
  }

  /** In every run with any crashes, every record is sound and the claim names an existing record. */
  lemma {:induction false} EveryRunIsDurable(s: State, trace: seq<Happening>)
    requires Initial(s) && AllPossible(trace)
    ensures Durable(RunOf(s, trace))
  {
    if trace != [] {
      var front := trace[..|trace| - 1];
      EveryRunIsDurable(s, front);
      StepStaysDurable(RunOf(s, front), trace[|trace| - 1]);
    }
  }

  /** In every run without crashes, the claim names a run exactly when it is active or awaits its handoff. */
  lemma {:induction false} CrashFreeClaimsAreExact(s: State, trace: seq<Happening>)
    requires Initial(s) && AllPossible(trace) && CrashFree(s, trace)
    ensures ClaimExact(RunOf(s, trace)) && Durable(RunOf(s, trace))
  {
    if trace != [] {
      var front, last := trace[..|trace| - 1], trace[|trace| - 1];
      CrashFreeClaimsAreExact(s, front);
      StepStaysExact(RunOf(s, front), last);
      EveryRunIsDurable(s, trace);
    }
  }

  lemma StepStaysExact(s: State, h: Happening)
    requires ClaimExact(s) && WellKeyed(s) && Uncut(s, h)
    ensures ClaimExact(After(s, h))
  {
    if h.Operate? {
      assert Cut(PlanOf(s, h.op).writes, h.cut) == PlanOf(s, h.op).writes;
      OperationKeepsClaimExact(s, h.op);
    }
  }

  // ----- The claimed run and the unsettled reservations -----

  /** Nothing an unsettled reservation mutates, declares to read (undeclared reads are everything) or holds
      meets the integration; implicit reads count as for a private snapshot. */
  ghost predicate Clear(row: Reservation, run: Run)
    requires run.integration.Some?
  {
    !IntegrationConflict(row.(privateSnapshot := true), Elements(run.task.scope),
                         run.integration.value.custody.resources)
  }

  ghost predicate SafeFor(pools: Pools, run: Run) {
    forall i, row | 0 <= i < |pools| && row in pools[i] && Unsettled(row) :: run.integration.Some? && Clear(row, run)
  }

  ghost predicate ClaimSafe(s: State) {
    s.active.Some? ==> s.active.value in s.records && SafeFor(s.pools, s.records[s.active.value])
  }

  ghost predicate CustodySafe(s: State) {
    && Apart(s.pools) && ClaimSafe(s) && (s.kind != Main ==> s.pools == [])
  }

  lemma SafetyIsIdentity(pools: Pools, run: Run, now: Run)
    requires SameIdentity(run, now) && SafeFor(pools, run)
    ensures SafeFor(pools, now)
  {
    forall i, row | 0 <= i < |pools| && row in pools[i] && Unsettled(row)
      ensures now.integration.Some? && Clear(row, now)
    {
      assert run.integration.Some? && Clear(row, run);
    }
  }

  lemma UnsettledIsActive(s: State, i: nat, row: Reservation)
    requires i < |s.pools| && row in s.pools[i] && Unsettled(row)
    ensures row in Reservations.Active(s.pools, s.busy)
  {
    assert InForce(row, s.busy);
  }

  /** The integration guard gives more than safety: it also covers what a shared checkout reads implicitly. */
  lemma GuardedIsSafe(s: State, run: Run)
    requires run.integration.Some?
    requires IntegrationFree(Reservations.Active(s.pools, s.busy), Elements(run.task.scope),
                             run.integration.value.custody.resources)
    ensures SafeFor(s.pools, run)
  {
    forall i, row | 0 <= i < |s.pools| && row in s.pools[i] && Unsettled(row)
      ensures Clear(row, run)
    {
      UnsettledIsActive(s, i, row);
    }
  }

  lemma NothingReservedIsSafe(s: State, run: Run)
    requires s.kind != Main ==> s.pools == []
    requires !AnyReservation(s)
    ensures SafeFor(s.pools, run)
  {
    forall i, row | 0 <= i < |s.pools| && row in s.pools[i] && Unsettled(row)
      ensures s.kind == Main && row in Reservations.Active(s.pools, s.busy)
    {
      UnsettledIsActive(s, i, row);
    }
  }

  lemma ResumableIsSafe(s: State, run: Run)
    requires s.kind != Main ==> s.pools == []
    requires ResumeRefusal(s, run).None?
    ensures SafeFor(s.pools, run)
  {
    if run.integration.Some? && s.kind == Main {
      GuardedIsSafe(s, run);
    } else if run.integration.None? {
      NothingReservedIsSafe(s, run);
    }
  }

  // ----- Operations keep custody -----

  /** A plan claims a run only where claiming is safe, and what it saves of that run stays safe. */
  ghost predicate ClaimsGuarded(s: State, writes: seq<Write>) {
    forall i, k | 0 <= i < |writes| && 0 <= k < |writes| && writes[i].Claim? && writes[k].Save?
      && writes[k].run.task.id == writes[i].id ::
      SafeFor(s.pools, writes[k].run)
  }

  ghost predicate ClaimsSafely(s: State, writes: seq<Write>) {
    && ClaimsGuarded(s, writes)
    && forall i | 0 <= i < |writes| && writes[i].Claim? && writes[i].id in s.records ::
       SafeFor(s.pools, s.records[writes[i].id])
  }

  /** A claim lost to a crash is taken again by `integrate` before its reservation guard: the one unguarded claim. */
  predicate RetakesClaim(s: State, op: Operation) {
    && op.IntegrateCandidate? && s.kind == Main && s.active.None? && op.input.id in s.records
    && var run := s.records[op.input.id];
       run.status == Active && run.integration.Some? && run.task.owner == op.input.owner
  }

  ghost predicate TakenSafely(s: State, op: Operation) {
    RetakesClaim(s, op) ==> SafeFor(s.pools, s.records[op.input.id])
  }

  lemma BeginClaimsSafely(s: State, task: Task)
    requires s.kind != Main ==> s.pools == []
    ensures ClaimsSafely(s, BeginPlan(s, task).writes)
  {
    if BeginPlan(s, task).writes != [] {
      NothingReservedIsSafe(s, NewRun(s, task));
    }
  }

  lemma RestoredIsSafe(pools: Pools, run: Run, event: Event)
    requires SafeFor(pools, run)
    ensures SafeFor(pools, Noting(Reactivated(run), event))
  {
    SafetyIsIdentity(pools, run, Noting(Reactivated(run), event));
  }

  lemma ResumeClaimsSafely(s: State, id: string, owner: string)
    requires WellKeyed(s) && (s.kind != Main ==> s.pools == [])
    ensures ClaimsSafely(s, ResumePlan(s, id, owner).writes)
  {
    if ResumePlan(s, id, owner).writes != [] {
      ResumableIsSafe(s, s.records[id]);
      RestoredIsSafe(s.pools, s.records[id], Resumed);
    }
  }

  lemma ReconcileClaimsSafely(s: State, id: string, owner: string, reason: string)
    requires WellKeyed(s) && (s.kind != Main ==> s.pools == [])
    ensures ClaimsSafely(s, ReconcilePlan(s, id, owner, reason).writes)
  {
    if id in s.records && ResumeRefusal(s, s.records[id]).None? {
      ResumableIsSafe(s, s.records[id]);
      RestoredIsSafe(s.pools, s.records[id], Reconciled(reason));
    }
  }

  lemma PreparedIsSafe(s: State, input: IntegrationInput, c: Checkout)
    requires PrepareIntegration(s, input, c).Ready?
    ensures SafeFor(s.pools, PrepareIntegration(s, input, c).run)
    ensures PrepareIntegration(s, input, c).run.task.id == input.id
  {
    PreparationMeets(s, input, c);
    GuardedIsSafe(s, PrepareIntegration(s, input, c).run);
  }

  lemma AdoptClaimsSafely(s: State, run: Run, input: IntegrationInput, c: Checkout)
    requires run.integration.Some? && run.task.id == input.id && SafeFor(s.pools, run)
    requires input.id in s.records ==> s.records[input.id] == run
    ensures ClaimsSafely(s, AdoptPlan(s, run, input, c).writes)
  {
    ApplyShape(s, run, input, c, TakenUp(s, run));
    AppliedClaimsSafely(s, run, TakenUp(s, run), ApplyPlan(s, run, input, c, TakenUp(s, run)).writes);
  }

  lemma AppliedClaimsSafely(s: State, run: Run, before: seq<Write>, writes: seq<Write>)
    requires run.integration.Some? && SafeFor(s.pools, run)
    requires run.task.id in s.records ==> s.records[run.task.id] == run
    requires before == TakenUp(s, run) && AppliedWrites(run, before, writes)
    ensures ClaimsSafely(s, writes)
  {
    ReplacementsSaveNothing(run.integration.value, run.task.scope);
    SafetyIsIdentity(s.pools, run, Marked(run));
    forall k | 0 <= k < |writes| && writes[k].Save?
      ensures SafeFor(s.pools, writes[k].run)
    {
      assert writes[k].run == run || writes[k].run == Marked(run);
    }
    assert forall i | 0 <= i < |writes| && writes[i].Claim? :: writes[i].id == run.task.id;
  }

  lemma AdoptClaimed(s: State, run: Run, input: IntegrationInput, c: Checkout)
    requires run.integration.Some? && run.task.id == input.id && input.id in s.records
    requires s.active.Some? || run.status != Active || run.task.owner != input.owner
    ensures ClaimsNothing(AdoptPlan(s, run, input, c).writes)
  {
    ReplacementsSaveNothing(run.integration.value, run.task.scope);
    ApplyShape(s, run, input, c, TakenUp(s, run));
    assert run.status == Active && run.task.owner == input.owner ==> TakenUp(s, run) == [];
  }

  lemma IntegrateClaimsSafely(s: State, input: IntegrationInput, c: Checkout)
    requires WellKeyed(s) && TakenSafely(s, IntegrateCandidate(input, c))
    ensures ClaimsSafely(s, IntegratePlan(s, input, c).writes)
  {
    if input.id in s.records {
      if s.records[input.id].integration.Some? && s.kind == Main {
        if RetakesClaim(s, IntegrateCandidate(input, c)) {
          AdoptClaimsSafely(s, s.records[input.id], input, c);
        } else {
          AdoptClaimed(s, s.records[input.id], input, c);
        }
      }
    } else if PrepareIntegration(s, input, c).Ready? {
      PreparedIsSafe(s, input, c);
      AdoptClaimsSafely(s, PrepareIntegration(s, input, c).run, input, c);
    }
  }

  lemma PlanClaimsSafely(s: State, op: Operation)
    requires WellKeyed(s) && (s.kind != Main ==> s.pools == []) && TakenSafely(s, op)
    ensures ClaimsSafely(s, PlanOf(s, op).writes)
  {
    if Authors(op) {
      AuthoringClaimsNothing(s, op);
      return;
    }
    if op.FinishRun? || op.PauseRun? || op.SupersedeRun? {
      LeavingClaimsNothing(s, op);
      return;
    }
    match op
    case BeginRun(task) => BeginClaimsSafely(s, task);
    case ResumeRun(id, owner) => ResumeClaimsSafely(s, id, owner);
    case ReconcileRun(id, owner, reason) => ReconcileClaimsSafely(s, id, owner, reason);
    case IntegrateCandidate(input, checkout) => IntegrateClaimsSafely(s, input, checkout);
  }

  lemma LeavingClaimsNothing(s: State, op: Operation)
    requires op.FinishRun? || op.PauseRun? || op.SupersedeRun?
    ensures ClaimsNothing(PlanOf(s, op).writes)
  {
  }

  /** A state between the writes of a plan: what is claimed is safe, and was claimed before or by the plan. */
  ghost predicate During(s: State, plan: seq<Write>, t: State) {
    && ClaimSafe(t) && t.pools == s.pools && t.kind == s.kind && Identified(s, t)
    && (forall id | id in t.records && id !in s.records :: Save(t.records[id]) in plan && t.records[id].task.id == id)
    && (t.active.Some? && t.active != s.active ==> Claim(t.active.value) in plan)
  }

  lemma SaveStaysSafe(s: State, plan: seq<Write>, t: State, run: Run)
    requires During(s, plan, t) && ClaimNamesRecord(s) && ClaimsGuarded(s, plan)
    requires Save(run) in plan && t.active == Some(run.task.id)
    requires run.task.id in s.records ==> SameIdentity(s.records[run.task.id], run)
    ensures SafeFor(s.pools, run)
  {
    var id := run.task.id;
    if id in s.records {
      SafetyIsIdentity(t.pools, t.records[id], run);
    } else {
      var i :| 0 <= i < |plan| && plan[i] == Claim(id);
      var k :| 0 <= k < |plan| && plan[k] == Save(run);
    }
  }

  lemma ClaimStaysSafe(s: State, plan: seq<Write>, t: State, id: string)
    requires During(s, plan, t) && ClaimsSafely(s, plan) && Claim(id) in plan && id in t.records
    ensures SafeFor(s.pools, t.records[id])
  {
    var i :| 0 <= i < |plan| && plan[i] == Claim(id);
    if id in s.records {
      SafetyIsIdentity(s.pools, s.records[id], t.records[id]);
    } else {
      var k :| 0 <= k < |plan| && plan[k] == Save(t.records[id]);
    }
  }

  lemma PutStaysSafe(s: State, plan: seq<Write>, t: State, w: Write)
    requires During(s, plan, t) && ClaimNamesRecord(s) && ClaimsSafely(s, plan) && w in plan
    requires w.Save? && w.run.task.id in s.records ==> SameIdentity(s.records[w.run.task.id], w.run)
    requires w.Claim? ==> w.id in t.records
    ensures During(s, plan, Put(t, w))
  {
    match w
    case Save(run) =>
      if t.active == Some(run.task.id) {
        SaveStaysSafe(s, plan, t, run);
      }
    case Claim(id) => ClaimStaysSafe(s, plan, t, id);
    case _ =>
  }

  /** Between any two writes of a guarded plan, what is claimed is safe beside the reservations. */
  lemma {:induction false} PrefixStaysSafe(s: State, plan: seq<Write>, count: nat)
    requires ClaimSafe(s) && ClaimNamesRecord(s) && SavesIdentify(s, plan) && ClaimsRecorded(s, plan)
             && ClaimsSafely(s, plan)
    requires count <= |plan|
    ensures During(s, plan, Perform(s, plan[..count]))
  {
    if count > 0 {
      PrefixStaysSafe(s, plan, count - 1);
      assert plan[..count][..count - 1] == plan[..count - 1];
      ClaimIsRecordedByThen(s, plan, count);
      PutStaysSafe(s, plan, Perform(s, plan[..count - 1]), plan[count - 1]);
    } else {
      assert plan[..0] == [];
    }
  }

  lemma ClaimIsRecordedByThen(s: State, plan: seq<Write>, count: nat)
    requires 0 < count <= |plan| && ClaimsRecorded(s, plan) && ClaimNamesRecord(s)
    ensures plan[count - 1].Claim? ==> plan[count - 1].id in Perform(s, plan[..count - 1]).records
  {
    var before := plan[..count - 1];
    FrontClaimsRecorded(s, plan, count - 1);
    if plan[count - 1].Claim? {
      if plan[count - 1].id in s.records {
        RecordedAfter(s, before);
      } else {
        var j :| 0 <= j < count - 1 && plan[j].Save? && plan[j].run.task.id == plan[count - 1].id;
        assert before[j] == plan[j];
        SavedByThen(s, before, j, plan[j].run);
      }
    }
  }

  lemma FrontClaimsRecorded(s: State, plan: seq<Write>, count: nat)
    requires count <= |plan| && ClaimsRecorded(s, plan)
    ensures ClaimsRecorded(s, plan[..count])
  {
    CutIsPrefix(s, plan, count);
  }

  lemma SavedByThen(s: State, front: seq<Write>, j: nat, run: Run)
    requires ClaimsRecorded(s, front) && ClaimNamesRecord(s) && j < |front| && front[j] == Save(run)
    ensures run.task.id in Perform(s, front).records
  {
    RecordedAfter(s, front);
  }

  lemma RecordedAfter(s: State, front: seq<Write>)
    requires ClaimsRecorded(s, front) && ClaimNamesRecord(s)
    ensures forall id | id in s.records :: id in Perform(s, front).records
    ensures forall j | 0 <= j < |front| && front[j].Save? :: front[j].run.task.id in Perform(s, front).records
  {
    PrefixKeepsClaimNamed(s, front);
  }

  // ----- Every step, exactly -----

  lemma OperationStaysSafe(s: State, op: Operation, cut: nat)
    requires Durable(s) && CustodySafe(s) && Trusted(op) && TakenSafely(s, op)
    ensures CustodySafe(After(s, Operate(op, cut)))
  {
    var plan := PlanOf(s, op).writes;
    PlanSavesSound(s, op);
    SoundSavesIdentify(s, plan);
    PlanClaimsRecorded(s, op);
    PlanClaimsSafely(s, op);
    PrefixStaysSafe(s, plan, if cut <= |plan| then cut else |plan|);
    assert plan[..|plan|] == plan;
  }

  /** A cohort admitted beside a claimed integration is clear of it. */
  lemma AdmissionStaysSafe(s: State, tasks: seq<Reservation>)
    requires CustodySafe(s) && Fresh(tasks)
    ensures CustodySafe(After(s, AdmitPool(tasks)))
  {
    if PoolAdmitted(s, tasks) {
      AdmissionKeepsApart(s.pools, s.busy, tasks);
      var t := After(s, AdmitPool(tasks));
      if t.active.Some? {
        var run := s.records[s.active.value];
        forall i, row | 0 <= i < |t.pools| && row in t.pools[i] && Unsettled(row)
          ensures run.integration.Some? && Clear(row, run)
        {
          if i == |s.pools| {
            var k :| 0 <= k < |tasks| && tasks[k] == row;
            assert MayRunBeside(tasks[k], run.task.id, Elements(run.task.scope),
                                run.integration.value.custody.resources);
            AdmissionGap(row.(privateSnapshot := true), run.task.id, Elements(run.task.scope),
                         run.integration.value.custody.resources);
          }
        }
      }
    }
  }

  lemma SettlingStaysSafe(s: State, pool: nat, id: string, retained: Option<string>)
    requires CustodySafe(s)
    ensures CustodySafe(After(s, SettleOutcome(pool, id, retained)))
  {
    if pool < |s.pools| {
      SettlingKeepsApart(s.pools, pool, id, retained);
    }
  }

  /** The happening does not take an unsafe claim again. */
  ghost predicate TakesSafely(s: State, h: Happening) {
    h.Operate? && h.cut > 0 ==> TakenSafely(s, h.op)
  }

  lemma StepStaysSafe(s: State, h: Happening)
    requires Durable(s) && CustodySafe(s) && Possible(h) && TakesSafely(s, h)
    ensures CustodySafe(After(s, h))
  {
    match h
    case Operate(op, cut) =>
      if cut == 0 {
        assert Cut(PlanOf(s, op).writes, 0) == [];
      } else {
        OperationStaysSafe(s, op, cut);
      }
    case AdmitPool(tasks) => AdmissionStaysSafe(s, tasks);
    case SettleOutcome(pool, id, retained) => SettlingStaysSafe(s, pool, id, retained);
    case _ =>
  }

  lemma {:induction false} PerformKeepsPools(s: State, writes: seq<Write>)
    ensures Perform(s, writes).pools == s.pools
  {
    if writes != [] {
      PerformKeepsPools(s, writes[..|writes| - 1]);
    }
  }

  lemma {:induction false} FirstClaimStays(s: State, writes: seq<Write>, id: string)
    requires |writes| > 0 && writes[0] == Claim(id)
    requires forall i | 0 < i < |writes| :: !writes[i].Claim? && !writes[i].Release?
    ensures Perform(s, writes).active == Some(id)
  {
    if |writes| > 1 {
      FirstClaimStays(s, writes[..|writes| - 1], id);
    }
  }

  /** What integrating a run with a lost claim writes first is the claim. */
  lemma RetakingClaimsFirst(s: State, op: Operation)
    requires WellKeyed(s) && RetakesClaim(s, op)
    ensures var writes := PlanOf(s, op).writes;
            && |writes| > 0 && writes[0] == Claim(op.input.id)
            && forall i | 0 < i < |writes| :: !writes[i].Claim? && !writes[i].Release?
  {
    var run := s.records[op.input.id];
    ApplyShape(s, run, op.input, op.checkout, TakenUp(s, run));
    ReplacementsSaveNothing(run.integration.value, run.task.scope);
    assert TakenUp(s, run) == [Claim(op.input.id)];
  }

  lemma IdentityIsSymmetric(run: Run, now: Run)
    requires SameIdentity(run, now)
    ensures SameIdentity(now, run)
  {
  }

  /** Cut anywhere after that, the claimed run is the recorded one beside the same reservations. */
  lemma RetakenIsClaimed(s: State, op: Operation, cut: nat)
    requires Durable(s) && Trusted(op) && RetakesClaim(s, op) && cut > 0
    ensures var t, id := After(s, Operate(op, cut)), op.input.id;
            && t.active == Some(id) && t.pools == s.pools && id in t.records
            && SameIdentity(s.records[id], t.records[id])
  {
    RetakingClaimsFirst(s, op);
    OperationStaysDurable(s, op, cut);
    var writes := Cut(PlanOf(s, op).writes, cut);
    assert forall i | 0 <= i < |writes| :: writes[i] == PlanOf(s, op).writes[i];
    FirstClaimStays(s, writes, op.input.id);
    PerformKeepsPools(s, writes);
  }

  /** One step, exactly: custody stays safe if and only if the step does not take an unsafe claim again. */
  lemma StepIsSafeExactly(s: State, h: Happening)
    requires Durable(s) && CustodySafe(s) && Possible(h)
    ensures CustodySafe(After(s, h)) <==> TakesSafely(s, h)
  {
    if TakesSafely(s, h) {
      StepStaysSafe(s, h);
    } else {
      RetakenIsClaimed(s, h.op, h.cut);
      UnsafeClaimIsUnsafe(s, After(s, h), h.op.input.id);
    }
  }

  lemma UnsafeClaimIsUnsafe(s: State, t: State, id: string)
    requires id in s.records && !SafeFor(s.pools, s.records[id])
    requires t.active == Some(id) && t.pools == s.pools && id in t.records && SameIdentity(s.records[id], t.records[id])
    ensures !CustodySafe(t)
  {
    if ClaimSafe(t) {
      IdentityIsSymmetric(s.records[id], t.records[id]);
      SafetyIsIdentity(s.pools, t.records[id], s.records[id]);
    }
  }

  // ----- Every run, exactly -----

  ghost predicate AlwaysTakesSafely(s: State, trace: seq<Happening>) {
    trace == [] ||
    (AlwaysTakesSafely(s, trace[..|trace| - 1]) && TakesSafely(RunOf(s, trace[..|trace| - 1]), trace[|trace| - 1]))
  }

  /** Custody is safe throughout the run. */
  ghost predicate AlwaysSafe(s: State, trace: seq<Happening>) {
    CustodySafe(RunOf(s, trace)) && (trace == [] || AlwaysSafe(s, trace[..|trace| - 1]))
  }

  /** Over every run, crashes included: unsettled reservations stay pairwise apart and the claimed run safe
      beside them, throughout, if and only if no lost claim is taken again beside a reservation it meets. */
  lemma {:induction false} CustodyHolds(s: State, trace: seq<Happening>)
    requires Initial(s) && AllPossible(trace)
    ensures AlwaysSafe(s, trace) <==> AlwaysTakesSafely(s, trace)
  {
    if trace != [] {
      var front := trace[..|trace| - 1];
      CustodyHolds(s, front);
      EveryRunIsDurable(s, front);
      if AlwaysSafe(s, front) {
        StepIsSafeExactly(RunOf(s, front), trace[|trace| - 1]);
      }
    }
  }

  lemma ExactClaimIsNotRetaken(s: State, h: Happening)
    requires ClaimExact(s)
    ensures TakesSafely(s, h)
  {
  }

  /** Without crashes no claim is taken again. */
  lemma {:induction false} CrashFreeTakesSafely(s: State, trace: seq<Happening>)
    requires Initial(s) && AllPossible(trace) && CrashFree(s, trace)
    ensures AlwaysTakesSafely(s, trace)
  {
    if trace != [] {
      var front := trace[..|trace| - 1];
      CrashFreeTakesSafely(s, front);
      CrashFreeClaimsAreExact(s, front);
      ExactClaimIsNotRetaken(RunOf(s, front), trace[|trace| - 1]);
    }
  }

  /** In every run without crashes, custody is safe throughout. */
  lemma CrashFreeCustodyHolds(s: State, trace: seq<Happening>)
    requires Initial(s) && AllPossible(trace) && CrashFree(s, trace)
    ensures AlwaysSafe(s, trace)
  {
    CrashFreeTakesSafely(s, trace);
    CustodyHolds(s, trace);
  }
}
