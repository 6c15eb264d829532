/** The check loop of `advance`: whatever a command does to the source, the loop ends. */
module Advancing {
  import opened Basics
  import opened Integration
  import opened Records
  import opened Workflows
  import opened WorkflowLaws
  import opened Lifecycle
  import opened LifecycleInvariant
  import opened LifecycleSaves
  import opened LifecycleClaims
  import LifecycleTheorems

  function Resulting(s: State, plan: Plan): State {
    Perform(s, plan.writes)
  }

  predicate AsksCheck(outcome: Outcome) {
    outcome.Acted? && outcome.action.RunCheck?
  }

  // ----- What `next` has seen when it asks for a check -----

  /** Nothing pending, and the implementation attested for the source. */
  ghost predicate Attested(run: Run, source: Tree) {
    var results := run.workflow.results;
    && NothingPending(run.workflow) && LastSettled(results).Some? && LastSettled(results).value.accepted
    && LastImplementation(results).Some? && LastImplementation(results).value.accepted
    && LastImplementation(results).value.response.source == source
  }

  /** The source the run's evidence is about: the attested one, or the merged one. */
  ghost predicate About(run: Run, source: Tree) {
    if run.integration.Some? then source == run.integration.value.sourceAfter
    else
      var implementation := LastImplementation(run.workflow.results);
      implementation.Some? && implementation.value.response.source == source
  }

  lemma AttestedCheckAsked(
    run: Run, source: Tree, valid: set<string>, implementation: StageResult, checkId: string)
    requires NextAttested(run, source, valid, implementation).action == RunCheck(checkId)
    ensures NextAttested(run, source, valid, implementation).run == DropPending(run)
    ensures FirstMissing(run.task, valid).Some? && FirstMissing(run.task, valid).value.id == checkId
    ensures !FailedAt(run, checkId, source)
  {
  }

  lemma ImplementationIsNative(run: Run, source: Tree)
    ensures NextImplementation(run, source).action.Native?
  {
  }

  /** A run authored here is asked for a check only when attested, and for the first declared check that
      neither counts nor failed here. */
  lemma CheckAsked(run: Run, source: Tree, valid: set<string>, checkId: string)
    requires Bookkept(run.workflow) && NextDirect(run, source, valid).action == RunCheck(checkId)
    ensures NextDirect(run, source, valid).run == DropPending(run)
    ensures Attested(DropPending(run), source)
    ensures FirstMissing(run.task, valid).Some? && FirstMissing(run.task, valid).value.id == checkId
    ensures !FailedAt(run, checkId, source)
  {
    DropPendingKeepsBooks(run);
    ImplementationIsNative(run, source);
    var implementation := LastImplementation(run.workflow.results);
    if implementation.Some?
       && NextDirect(run, source, valid) == NextAttested(run, source, valid, implementation.value) {
      AttestedCheckAsked(run, source, valid, implementation.value, checkId);
    }
  }

  lemma IntegratedCheckAsked(run: Run, source: Tree, valid: set<string>, checkId: string)
    requires run.integration.Some? && NextIntegrated(run, source, valid).Decided?
    requires NextIntegrated(run, source, valid).action == RunCheck(checkId)
    ensures NextIntegrated(run, source, valid).run == run && About(run, source)
    ensures FirstMissing(run.task, valid).Some? && FirstMissing(run.task, valid).value.id == checkId
    ensures !FailedAt(run, checkId, source)
  {
  }

  /** The record that is about to run a check, as `next` saw it. */
  ghost predicate Asked(run: Run, source: Tree, valid: set<string>, checkId: string) {
    && About(run, source)
    && FirstMissing(run.task, valid).Some? && FirstMissing(run.task, valid).value.id == checkId
    && !FailedAt(run, checkId, source)
  }

  lemma DecisionAsks(run: Run, source: Tree, valid: set<string>, checkId: string)
    requires Bookkept(run.workflow) && NextAction(run, source, valid).Decided?
    requires NextAction(run, source, valid).action == RunCheck(checkId)
    ensures Asked(run, source, valid, checkId) && OnlyAsks(run, NextAction(run, source, valid).run)
  {
    NextKeepsBooks(run, source, valid);
    if run.integration.Some? {
      IntegratedCheckAsked(run, source, valid, checkId);
    } else {
      CheckAsked(run, source, valid, checkId);
      DropPendingKeepsBooks(run);
    }
  }

  lemma CheckDecided(s: State, id: string, owner: string, checkId: string)
    requires NextPlan(s, id, owner).outcome == Acted(RunCheck(checkId))
    ensures id in s.records
    ensures var decided := NextAction(s.records[id], s.files, Valid(s, s.records[id], s.files));
            && decided.Decided? && decided.action == RunCheck(checkId)
            && NextPlan(s, id, owner).writes == [Save(decided.run)]
  {
  }

  lemma SoundIsKeyed(s: State)
    requires SoundRecords(s)
    ensures WellKeyed(s)
  {
  }

  lemma SoundRecordBooks(s: State, id: string)
    requires SoundRecords(s) && id in s.records
    ensures Bookkept(s.records[id].workflow) && DistinctChecks(s.records[id].task) && s.records[id].task.id == id
  {
    assert Soundness()(RecordAt(s, id));
    LifecycleTheorems.SoundTask(s.records[id]);
  }

  /** A state about to run a check. */
  ghost predicate Checking(s: State, id: string, checkId: string) {
    && SoundRecords(s) && id in s.records
    && Asked(s.records[id], s.files, Valid(s, s.records[id], s.files), checkId)
  }

  /** The checks that do not count yet. */
  function MissingCount(s: State, id: string): nat {
    if id in s.records && |Valid(s, s.records[id], s.files)| <= |s.records[id].task.checks|
    then |s.records[id].task.checks| - |Valid(s, s.records[id], s.files)| else 0
  }

  lemma AskedFrame(run: Run, now: Run, source: Tree, valid: set<string>, checkId: string)
    requires Asked(run, source, valid, checkId) && OnlyAsks(run, now)
    ensures Asked(now, source, valid, checkId)
  {
  }

  /** Before: the state `next` was asked in. After: the state in which the check runs. */
  lemma NextAsksCheck(s: State, id: string, owner: string, checkId: string)
    requires SoundRecords(s) && NextPlan(s, id, owner).outcome == Acted(RunCheck(checkId))
    ensures Checking(s, id, checkId)
    ensures var u := Resulting(s, NextPlan(s, id, owner));
            Checking(u, id, checkId) && MissingCount(u, id) == MissingCount(s, id) && u.files == s.files
              && u.logs == s.logs
  {
    CheckDecided(s, id, owner, checkId);
    SoundRecordBooks(s, id);
    PlanSavesSound(s, NextStep(id, owner));
    PrefixKeepsRecords(s, NextPlan(s, id, owner).writes);
    var run, valid := s.records[id], Valid(s, s.records[id], s.files);
    DecisionAsks(run, s.files, valid, checkId);
    AskedState(s, id, checkId, NextAction(run, s.files, valid).run);
  }

  lemma AskedState(s: State, id: string, checkId: string, now: Run)
    requires id in s.records && s.records[id].task.id == id && OnlyAsks(s.records[id], now)
    requires Asked(s.records[id], s.files, Valid(s, s.records[id], s.files), checkId)
    ensures var u := Perform(s, [Save(now)]);
            && id in u.records && u.records[id] == now && u.files == s.files && u.logs == s.logs
            && Asked(now, u.files, Valid(u, now, u.files), checkId) && MissingCount(u, id) == MissingCount(s, id)
  {
    PerformOne(s, Save(now));
    LifecycleTheorems.ValidFrame(s, Put(s, Save(now)), s.records[id], now);
    AskedFrame(s.records[id], now, s.files, Valid(s, s.records[id], s.files), checkId);
  }

  // ----- What a check records, whatever its command did -----

  /** The record after a check. */
  function CheckedRun(s: State, run: Run, spec: CheckSpec, command: Command): Run {
    Started(run, spec.id).(checks := run.checks + [CheckOf(s, run, spec, command)], verdict := None)
  }

  /** The command leaves the source and the head as they are. */
  predicate LeavesSource(s: State, command: Command) {
    command.files == s.files && command.head == s.head
  }

  lemma PerformFive(s: State, a: Write, b: Write, c: Write, d: Write, e: Write)
    ensures Perform(s, [a, b, c, d, e]) == Put(Put(Put(Put(Put(s, a), b), c), d), e)
  {
    PerformTwo(s, a, b);
    PerformSnoc(s, [a, b], c);
    PerformSnoc(s, [a, b] + [c], d);
    PerformSnoc(s, [a, b] + [c] + [d], e);
    assert [a, b, c, d, e] == [a, b] + [c] + [d] + [e];
  }

  lemma SaveTwice(s: State, first: Run, second: Run)
    requires first.task.id == second.task.id
    ensures Put(Put(s, Save(first)), Save(second)) == Put(s, Save(second))
  {
  }

  /** A check recorded with the tree its command left, its logs written and no other log touched. */
  ghost predicate Recorded(s: State, t: State, run: Run, now: Run, check: Check, files: Tree) {
    && now == run.(checks := run.checks + [check], verdict := None,
                   events := run.events + [CheckStart(check.spec.id, check.attempt)])
    && t.environment == s.environment && t.files == files
    && (forall log: Log | log.check != check.spec.id ::
          (log in t.logs <==> log in s.logs) && (log in s.logs ==> t.logs[log] == s.logs[log]))
    && (forall log | log in s.logs :: log in t.logs && t.logs[log] == s.logs[log])
    && check.attempt == StartCount(run.events, check.spec.id) + 1
    && (forall log | log in t.logs && log !in s.logs ::
          log == LogOf(run.task.id, check, Stdout) || log == LogOf(run.task.id, check, Stderr))
    && check.sourceBefore == s.files && check.environment == s.environment
    && (check.passed ==> files == s.files && check.sourceAfter == Some(files))
    && LogsIntact(run.task.id, check, t.logs)
  }

  lemma CheckMeans(s: State, id: string, owner: string, checkId: string, command: Command)
    requires WellKeyed(s) && CheckPlan(s, id, owner, checkId, command).outcome.Done?
    ensures id in s.records && FindCheck(s.records[id].task, checkId).Some?
    ensures var run, spec := s.records[id], FindCheck(s.records[id].task, checkId).value;
            var check := CheckOf(s, run, spec, command);
            var out, err := LogOf(id, check, Stdout), LogOf(id, check, Stderr);
            && spec.id == checkId && out !in s.logs && err !in s.logs
            && Resulting(s, CheckPlan(s, id, owner, checkId, command))
               == Put(s, Save(CheckedRun(s, run, spec, command))).(
                    files := command.files, head := command.head,
                    logs := s.logs[out := command.stdout][err := command.stderr])
  {
    var run, spec := s.records[id], FindCheck(s.records[id].task, checkId).value;
    var check := CheckOf(s, run, spec, command);
    var out, err := LogOf(id, check, Stdout), LogOf(id, check, Stderr);
    var checked := CheckedRun(s, run, spec, command);
    PerformFive(s, Save(Started(run, checkId)), CommandRan(command.files, command.head),
                WriteLog(out, command.stdout), WriteLog(err, command.stderr), Save(checked));
    SaveTwice(s, Started(run, checkId), checked);
  }

  lemma CheckRecords(s: State, id: string, owner: string, checkId: string, command: Command)
    requires WellKeyed(s) && CheckPlan(s, id, owner, checkId, command).outcome.Done?
    ensures id in s.records && FindCheck(s.records[id].task, checkId).Some?
    ensures var t, run := Resulting(s, CheckPlan(s, id, owner, checkId, command)), s.records[id];
            var check := CheckOf(s, run, FindCheck(run.task, checkId).value, command);
            && id in t.records && check.spec.id == checkId && t.head == command.head && t.kind == s.kind
            && t.active == s.active && t.pools == s.pools && t.busy == s.busy
            && Recorded(s, t, run, t.records[id], check, command.files)
            && (LeavesSource(s, command) ==> (check.passed <==> command.success))
  {
    CheckMeans(s, id, owner, checkId, command);
    CheckGranted(s, id, owner, checkId, command);
    var run := s.records[id];
    WrittenIsRecorded(s, Resulting(s, CheckPlan(s, id, owner, checkId, command)), run,
                      FindCheck(run.task, checkId).value, command);
  }

  lemma WrittenIsRecorded(s: State, t: State, run: Run, spec: CheckSpec, command: Command)
    requires SourceRefusal(s, run).None?
    requires var check := CheckOf(s, run, spec, command);
             var out, err := LogOf(run.task.id, check, Stdout), LogOf(run.task.id, check, Stderr);
             && out !in s.logs && err !in s.logs
             && t == Put(s, Save(CheckedRun(s, run, spec, command))).(
                       files := command.files, head := command.head,
                       logs := s.logs[out := command.stdout][err := command.stderr])
    ensures run.task.id in t.records && t.head == command.head && t.kind == s.kind
    ensures t.active == s.active && t.pools == s.pools && t.busy == s.busy
    ensures Recorded(s, t, run, t.records[run.task.id], CheckOf(s, run, spec, command), command.files)
    ensures LeavesSource(s, command) ==> (CheckOf(s, run, spec, command).passed <==> command.success)
  {
  }

  lemma CheckGranted(s: State, id: string, owner: string, checkId: string, command: Command)
    requires CheckPlan(s, id, owner, checkId, command).outcome.Done?
    ensures id in s.records && SourceRefusal(s, s.records[id]).None?
  {
  }

  lemma LastWhereSnoc<T>(items: seq<T>, item: T, p: T -> bool)
    ensures LastWhere(items + [item], p) == if p(item) then Some(item) else LastWhere(items, p)
  {
    assert (items + [item])[..|items|] == items;
  }

  lemma ValidFits(s: State, run: Run)
    requires DistinctChecks(run.task)
    ensures |Valid(s, run, s.files)| <= |run.task.checks|
  {
    CountIds(run.task.checks);
    SubsetCount(Valid(s, run, s.files), Ids(run.task.checks));
  }

  lemma OtherChecksKeepValid(s: State, t: State, run: Run, now: Run, check: Check, files: Tree, other: string)
    requires Recorded(s, t, run, now, check, files) && other != check.spec.id && files == s.files
    ensures CheckValid(now, other, t.files, t.environment, t.logs)
            <==> CheckValid(run, other, s.files, s.environment, s.logs)
  {
    LastWhereFrame(run.checks, check, (c: Check) => c.spec.id == other);
    LastWhereFrame(run.events, CheckStart(check.spec.id, check.attempt), (e: Event) => e.CheckStart? && e.id == other);
  }

  lemma ThisCheckIsValid(s: State, t: State, run: Run, now: Run, check: Check, files: Tree)
    requires Recorded(s, t, run, now, check, files)
    ensures CheckValid(now, check.spec.id, t.files, t.environment, t.logs) <==> check.passed
    ensures FailedAt(now, check.spec.id, t.files) <==> !check.passed && files == s.files
  {
    LastWhereSnoc(run.checks, check, (c: Check) => c.spec.id == check.spec.id);
    LastWhereSnoc(run.events, CheckStart(check.spec.id, check.attempt),
                  (e: Event) => e.CheckStart? && e.id == check.spec.id);
  }

  /** After a check of an unchanged source, the valid checks are the earlier ones, and this one exactly when it
      passed. */
  lemma ValidAfterCheck(s: State, t: State, run: Run, now: Run, check: Check, files: Tree)
    requires Recorded(s, t, run, now, check, files) && files == s.files
    requires check.spec.id in Ids(run.task.checks) && check.spec.id !in Valid(s, run, s.files)
    ensures Valid(t, now, t.files) == Valid(s, run, s.files) + if check.passed then {check.spec.id} else {}
  {
    ThisCheckIsValid(s, t, run, now, check, files);
    forall other | other != check.spec.id
      ensures CheckValid(now, other, t.files, t.environment, t.logs)
              <==> CheckValid(run, other, s.files, s.environment, s.logs)
    {
      OtherChecksKeepValid(s, t, run, now, check, files, other);
    }
  }

  /** When another check is asked for after this one, this one passed and one fewer is missing. */
  lemma AskedAgainMeansPassed(s: State, t: State, run: Run, now: Run, check: Check, files: Tree, again: string)
    requires Recorded(s, t, run, now, check, files) && DistinctChecks(run.task)
    requires Asked(run, s.files, Valid(s, run, s.files), check.spec.id)
    requires Asked(now, t.files, Valid(t, now, t.files), again)
    ensures check.passed && files == s.files
    ensures |Valid(s, run, s.files)| < |run.task.checks|
    ensures |Valid(t, now, t.files)| == |Valid(s, run, s.files)| + 1
  {
    MissingIsDeclared(run.task, Valid(s, run, s.files));
    AboutOneSource(run, now, s.files, t.files);
    ThisCheckIsValid(s, t, run, now, check, files);
    ValidAfterCheck(s, t, run, now, check, files);
    ValidFits(t, now);
  }

  lemma AboutOneSource(run: Run, now: Run, source: Tree, other: Tree)
    requires About(run, source) && About(now, other)
    requires now.workflow == run.workflow && now.integration == run.integration
    ensures source == other
  {
  }

  /** One turn of the loop of `advance`, for every sound record and every command: if `next` then asks for
      another check, one fewer is missing. */
  lemma CheckTurn(s: State, id: string, owner: string, checkId: string, command: Command)
    requires Checking(s, id, checkId) && CheckPlan(s, id, owner, checkId, command).outcome.Done?
    ensures var t := Resulting(s, CheckPlan(s, id, owner, checkId, command));
            && SoundRecords(t) && id in t.records && 0 < MissingCount(s, id)
            && (AsksCheck(NextPlan(t, id, owner).outcome) ==>
                  MissingCount(t, id) + 1 == MissingCount(s, id) && LeavesSource(s, command) && command.success)
  {
    SoundIsKeyed(s);
    SoundRecordBooks(s, id);
    CheckKeepsSound(s, id, owner, checkId, command);
    CheckRecords(s, id, owner, checkId, command);
    SomethingMissing(s, id, checkId);
    var t, run := Resulting(s, CheckPlan(s, id, owner, checkId, command)), s.records[id];
    if AsksCheck(NextPlan(t, id, owner).outcome) {
      NextAsksCheck(t, id, owner, NextPlan(t, id, owner).outcome.action.id);
      var check := CheckOf(s, run, FindCheck(run.task, checkId).value, command);
      AskedAgainMeansPassed(s, t, run, t.records[id], check, command.files, NextPlan(t, id, owner).outcome.action.id);
      PassedMeansQuiet(s, id, owner, checkId, command);
    }
  }

  lemma CheckKeepsSound(s: State, id: string, owner: string, checkId: string, command: Command)
    requires SoundRecords(s)
    ensures SoundRecords(Resulting(s, CheckPlan(s, id, owner, checkId, command)))
  {
    PlanSavesSound(s, RunDeclaredCheck(id, owner, checkId, command));
    PrefixKeepsRecords(s, CheckPlan(s, id, owner, checkId, command).writes);
  }

  lemma SomethingMissing(s: State, id: string, checkId: string)
    requires Checking(s, id, checkId)
    ensures 0 < MissingCount(s, id)
  {
    SoundRecordBooks(s, id);
    var run, valid := s.records[id], Valid(s, s.records[id], s.files);
    LifecycleTheorems.ValidIsDeclared(s, run);
    ValidFits(s, run);
    NoneMissingIsAll(run, valid);
  }

  lemma PassedMeansQuiet(s: State, id: string, owner: string, checkId: string, command: Command)
    requires WellKeyed(s) && CheckPlan(s, id, owner, checkId, command).outcome.Done?
    requires var run := s.records[id];
             FindCheck(run.task, checkId).Some? && CheckOf(s, run, FindCheck(run.task, checkId).value, command).passed
    ensures LeavesSource(s, command) && command.success
  {
    CheckGranted(s, id, owner, checkId, command);
  }
}
