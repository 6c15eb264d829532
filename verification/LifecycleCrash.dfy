/** Integrating across crashes: wherever an attempt is cut, the next one ends at the recorded tree. */
module LifecycleCrash {
  import opened Basics
  import opened Integration
  import opened Records
  import opened Reservations
  import opened Lifecycle
  import opened LifecycleInvariant
  import opened LifecycleSaves
  import opened LifecycleClaims
  import opened LifecycleCustody
  import Apply = IntegrationApply

  function EvidenceFor(run: Run): Apply.Evidence
    requires run.integration.Some?
  {
    var e := run.integration.value;
    Apply.Evidence(run.task.scope, e.sourceBefore, e.sourceAfter, e.candidateSource, run.outside)
  }

  lemma RecordedEvidence(run: Run)
    requires run.integration.Some? && EvidenceRecorded(run, run.integration.value)
    ensures Apply.Recorded(EvidenceFor(run)) && EvidenceFor(Marked(run)) == EvidenceFor(run)
  {
  }

  /** One replacement is one step of the apply loop. */
  lemma ReplacementIsWriteOne(s: State, run: Run, path: Path)
    requires run.integration.Some? && Apply.Recorded(EvidenceFor(run)) && path in run.task.scope
    ensures Put(s, Replacement(run.integration.value, path)).files == Apply.WriteOne(EvidenceFor(run), s.files, path)
  {
    MergeGet(run.integration.value.sourceBefore, Elements(run.task.scope), run.integration.value.candidateSource, path);
  }

  lemma {:induction false} ReplacementsAreWritten(s: State, run: Run, count: nat)
    requires run.integration.Some? && Apply.Recorded(EvidenceFor(run)) && count <= |run.task.scope|
    ensures Perform(s, Replacements(run.integration.value, run.task.scope[..count])).files
            == Apply.Written(EvidenceFor(run), s.files, count)
  {
    var e, scope := run.integration.value, run.task.scope;
    if count == 0 {
      assert scope[..0] == [];
    } else {
      ReplacementsAreWritten(s, run, count - 1);
      assert scope[..count] == scope[..count - 1] + [scope[count - 1]];
      PerformSnoc(s, Replacements(e, scope[..count - 1]), Replacement(e, scope[count - 1]));
      ReplacementIsWriteOne(Perform(s, Replacements(e, scope[..count - 1])), run, scope[count - 1]);
      assert scope[..count][..count - 1] == scope[..count - 1];
    }
  }

  lemma {:induction false} ReplacementsPrefix(e: Integrated, scope: seq<Path>, count: nat)
    requires count <= |scope|
    ensures Replacements(e, scope)[..count] == Replacements(e, scope[..count])
  {
    if count == |scope| {
      assert scope[..count] == scope && Replacements(e, scope)[..count] == Replacements(e, scope);
    } else {
      var front := scope[..|scope| - 1];
      ReplacementsPrefix(e, front, count);
      assert front[..count] == scope[..count];
      assert Replacements(e, scope)[..count] == Replacements(e, front)[..count];
    }
  }

  /** The guards of the apply loop leave a tree it can finish from. */
  lemma GuardedIsResumable(s: State, run: Run, input: IntegrationInput, c: Checkout)
    requires run.integration.Some? && ApplyRefusal(s, run, input, c).None?
    ensures Apply.Resumable(EvidenceFor(run), s.files)
  {
    var e := EvidenceFor(run);
    forall i | 0 <= i < |e.scope|
      ensures Get(s.files, e.scope[i]) == Get(e.sourceBefore, e.scope[i])
              || Get(s.files, e.scope[i]) == Get(e.sourceAfter, e.scope[i])
    {
      assert e.scope[i] in Elements(run.task.scope);
    }
  }

  lemma {:induction false} QuietKeepsFilesOf(s: State, t: State, writes: seq<Write>)
    requires t.files == s.files && forall i | 0 <= i < |writes| :: writes[i].Replace?
    ensures Perform(t, writes) == t.(files := Perform(s, writes).files)
  {
    if writes != [] {
      QuietKeepsFilesOf(s, t, writes[..|writes| - 1]);
    }
  }

  predicate TakesUp(w: Write) {
    w.Save? || w.Claim?
  }

  lemma {:induction false} TakingUpKeepsSurroundings(s: State, before: seq<Write>)
    requires forall i | 0 <= i < |before| :: TakesUp(before[i])
    ensures var t := Perform(s, before);
            t == s.(names := t.names, records := t.records, active := t.active)
  {
    if before != [] {
      TakingUpKeepsSurroundings(s, before[..|before| - 1]);
    }
  }

  /** The replacements after a take-up write the whole scope: they end exactly at the recorded tree. */
  lemma ReplacementsEndAtAfter(s: State, run: Run, input: IntegrationInput, c: Checkout, before: seq<Write>)
    requires run.integration.Some? && EvidenceRecorded(run, run.integration.value)
             && ApplyRefusal(s, run, input, c).None?
    requires forall i | 0 <= i < |before| :: TakesUp(before[i])
    ensures Perform(s, before + Replacements(run.integration.value, run.task.scope)).files
            == run.integration.value.sourceAfter
  {
    var replacements := Replacements(run.integration.value, run.task.scope);
    RecordedEvidence(run);
    GuardedIsResumable(s, run, input, c);
    TakingUpKeepsSurroundings(s, before);
    PerformAppend(s, before, replacements);
    assert run.task.scope[..|run.task.scope|] == run.task.scope;
    ReplacementsAreWritten(Perform(s, before), run, |run.task.scope|);
    Apply.FullPassEndsAtAfter(EvidenceFor(run), s.files);
  }

  /** Once its guards pass, an integration always ends prepared: the final mismatch is unreachable. */
  lemma MismatchIsUnreachable(s: State, run: Run, input: IntegrationInput, c: Checkout, before: seq<Write>)
    requires run.integration.Some? && EvidenceRecorded(run, run.integration.value)
    requires forall i | 0 <= i < |before| :: TakesUp(before[i])
    ensures var plan, refusal := ApplyPlan(s, run, input, c, before), ApplyRefusal(s, run, input, c);
            plan.outcome == if refusal.Some? then Refused(refusal.value) else Done(Marked(run))
    ensures ApplyRefusal(s, run, input, c).None? ==>
              Perform(s, ApplyPlan(s, run, input, c, before).writes).files == run.integration.value.sourceAfter
  {
    if ApplyRefusal(s, run, input, c).None? {
      ReplacementsEndAtAfter(s, run, input, c, before);
      PerformSnoc(s, before + Replacements(run.integration.value, run.task.scope), Save(Marked(run)));
    }
  }

  // ----- Resuming -----

  /** A state reached from the first one by some of the writes of the integration of this run. */
  ghost predicate MidIntegration(s: State, run: Run, t: State, count: nat)
    requires run.integration.Some? && count <= |run.task.scope|
  {
    && t.kind == s.kind && t.head == s.head && t.pools == s.pools && t.busy == s.busy
    && t.files == Apply.Written(EvidenceFor(run), s.files, count)
    && t.active in [None, Some(run.task.id)]
    && run.task.id in t.records && (t.records[run.task.id] == run || t.records[run.task.id] == Marked(run))
  }

  /** The same surroundings, a tree the apply loop can finish from, and the run recorded. */
  ghost predicate Midway(s: State, run: Run, t: State)
    requires run.integration.Some?
  {
    && t.kind == s.kind && t.head == s.head && t.pools == s.pools && t.busy == s.busy
    && Apply.Resumable(EvidenceFor(run), t.files)
    && t.active in [None, Some(run.task.id)]
    && run.task.id in t.records && (t.records[run.task.id] == run || t.records[run.task.id] == Marked(run))
  }

  lemma MidIntegrationIsMidway(s: State, run: Run, t: State, count: nat)
    requires run.integration.Some? && EvidenceRecorded(run, run.integration.value) && count <= |run.task.scope|
    requires MidIntegration(s, run, t, count) && Apply.Resumable(EvidenceFor(run), s.files)
    ensures Midway(s, run, t)
  {
    RecordedEvidence(run);
    Apply.CrashStaysResumable(EvidenceFor(run), s.files, count);
  }

  lemma GuardsPassAgain(s: State, run: Run, t: State, input: IntegrationInput, c: Checkout)
    requires run.integration.Some? && EvidenceRecorded(run, run.integration.value)
    requires Midway(s, run, t) && ApplyRefusal(s, run, input, c).None?
    ensures ApplyRefusal(t, t.records[run.task.id], input, c).None?
  {
    RecordedEvidence(run);
    ResumableIsGuarded(run, t.files);
  }

  lemma ResumableIsGuarded(run: Run, files: Tree)
    requires run.integration.Some? && Apply.Resumable(EvidenceFor(run), files)
    ensures var e := run.integration.value;
            && Outside(files, Elements(run.task.scope)) == run.outside
            && forall path | path in Elements(run.task.scope) ::
                 Get(files, path) == Get(e.sourceBefore, path) || Get(files, path) == Get(e.sourceAfter, path)
  {
    var e := EvidenceFor(run);
    forall path | path in Elements(run.task.scope)
      ensures Get(files, path) == Get(e.sourceBefore, path) || Get(files, path) == Get(e.sourceAfter, path)
    {
      var i :| 0 <= i < |e.scope| && e.scope[i] == path;
    }
  }

  /** The run an integration takes up: the existing record, or the one just prepared. */
  ghost predicate IntegratesRun(s: State, input: IntegrationInput, c: Checkout, run: Run) {
    && run.integration.Some? && run.task.id == input.id && run.status == Active && run.task.owner == input.owner
    && EvidenceRecorded(run, run.integration.value) && s.kind == Main && s.active in [None, Some(input.id)]
    && (if input.id in s.records then s.records[input.id] == run
        else PrepareIntegration(s, input, c) == Ready(run))
  }

  lemma IntegrationIsApplied(s: State, input: IntegrationInput, c: Checkout, run: Run)
    requires IntegratesRun(s, input, c, run)
    ensures IntegratePlan(s, input, c) == ApplyPlan(s, run, input, c, TakenUp(s, run))
  {
  }

  /** From such a state, integrating again passes its checks and ends prepared at the recorded tree. */
  lemma ResumesFromTheMiddle(s: State, run: Run, t: State, input: IntegrationInput, c: Checkout)
    requires run.integration.Some? && EvidenceRecorded(run, run.integration.value)
    requires Midway(s, run, t) && ApplyRefusal(s, run, input, c).None?
    requires s.kind == Main && run.status == Active && run.task.owner == input.owner && run.task.id == input.id
    ensures IntegratesRun(t, input, c, t.records[input.id]) && Marked(t.records[input.id]) == Marked(run)
    ensures var again := IntegratePlan(t, input, c);
            && again == ApplyPlan(t, t.records[input.id], input, c, TakenUp(t, t.records[input.id]))
            && again.outcome == Done(Marked(run)) && Perform(t, again.writes).files == run.integration.value.sourceAfter
  {
    var now := t.records[input.id];
    GuardsPassAgain(s, run, t, input, c);
    assert EvidenceRecorded(now, now.integration.value) && Marked(now) == Marked(run);
    MismatchIsUnreachable(t, now, input, c, TakenUp(t, now));
    IntegrationIsApplied(t, input, c, now);
  }

  // ----- Every crash point -----

  lemma DoneIntegratesRun(s: State, input: IntegrationInput, c: Checkout)
    requires SoundRecords(s) && Trusted(IntegrateCandidate(input, c)) && IntegratePlan(s, input, c).outcome.Done?
    ensures exists run :: IntegratesRun(s, input, c, run)
  {
    if input.id in s.records {
      assert Soundness()(RecordAt(s, input.id));
      assert IntegratesRun(s, input, c, s.records[input.id]);
    } else {
      PreparationMeets(s, input, c);
      var run := PrepareIntegration(s, input, c).run;
      PreparedHistory(s, input, c, c.record.value, Merge(s.files, Elements(c.record.value.task.scope), c.source));
      assert IntegratesRun(s, input, c, run);
    }
  }

  /** After the take-up writes and some replacements, with or without the final save. */
  lemma CutIsMidIntegration(s: State, run: Run, count: nat, done: bool)
    requires run.integration.Some? && EvidenceRecorded(run, run.integration.value) && count <= |run.task.scope|
    requires s.active in [None, Some(run.task.id)] && (run.task.id in s.records ==> s.records[run.task.id] == run)
    ensures var replacements := Replacements(run.integration.value, run.task.scope[..count]);
            var writes := TakenUp(s, run) + replacements + if done then [Save(Marked(run))] else [];
            MidIntegration(s, run, Perform(s, writes), count)
  {
    var before, replacements := TakenUp(s, run), Replacements(run.integration.value, run.task.scope[..count]);
    RecordedEvidence(run);
    TakingUpKeepsSurroundings(s, before);
    TakenUpRecords(s, run);
    var t := Perform(s, before);
    ReplacementsSaveNothing(run.integration.value, run.task.scope[..count]);
    QuietKeepsFilesOf(t, t, replacements);
    ReplacementsAreWritten(t, run, count);
    PerformAppend(s, before, replacements);
    if done {
      PerformSnoc(s, before + replacements, Save(Marked(run)));
    } else {
      assert before + replacements + [] == before + replacements;
    }
  }

  lemma TakenUpRecords(s: State, run: Run)
    requires s.active in [None, Some(run.task.id)] && (run.task.id in s.records ==> s.records[run.task.id] == run)
    ensures var t := Perform(s, TakenUp(s, run));
            run.task.id in t.records && t.records[run.task.id] == run && t.active == Some(run.task.id)
  {
    var saved := if run.task.id in s.records then [] else [Save(run)];
    if run.task.id !in s.records {
      PerformOne(s, Save(run));
    }
    if s.active.None? {
      PerformSnoc(s, saved, Claim(run.task.id));
    } else {
      assert TakenUp(s, run) == saved;
    }
  }

  /** The state after only part of the take-up: the record is saved and perhaps not yet claimed, or nothing has
      happened. */
  lemma EarlyCut(s: State, run: Run, cut: nat)
    requires run.integration.Some? && cut <= |TakenUp(s, run)| && s.active in [None, Some(run.task.id)]
    requires run.task.id in s.records ==> s.records[run.task.id] == run
    ensures var t := Perform(s, TakenUp(s, run)[..cut]);
            t == s || MidIntegration(s, run, t, 0)
  {
    var before := TakenUp(s, run);
    if cut == 0 {
      assert before[..cut] == [];
    } else if cut == |before| {
      assert before[..cut] == before;
      TakenUpRecords(s, run);
      TakingUpKeepsSurroundings(s, before);
    } else {
      SavedOnly(s, run, cut);
      PerformOne(s, Save(run));
    }
  }

  lemma SavedOnly(s: State, run: Run, cut: nat)
    requires 0 < cut < |TakenUp(s, run)|
    ensures TakenUp(s, run)[..cut] == [Save(run)] && run.task.id !in s.records && s.active.None?
  {
  }

  lemma AppliedResumes(s: State, input: IntegrationInput, c: Checkout, run: Run, plan: Plan, cut: nat)
    requires IntegratesRun(s, input, c, run) && plan == ApplyPlan(s, run, input, c, TakenUp(s, run))
             && plan.outcome.Done?
    ensures var t := Perform(s, Cut(plan.writes, cut));
            && plan.outcome == Done(Marked(run))
            && (t == s || (IntegratePlan(t, input, c).outcome == plan.outcome
                           && Perform(t, IntegratePlan(t, input, c).writes).files == run.integration.value.sourceAfter))
    ensures Perform(s, plan.writes).files == run.integration.value.sourceAfter
  {
    MismatchIsUnreachable(s, run, input, c, TakenUp(s, run));
    CutOfApplied(s, run, plan.writes, cut);
    var t := Perform(s, Cut(plan.writes, cut));
    if t != s {
      var count :| 0 <= count <= |run.task.scope| && MidIntegration(s, run, t, count);
      GuardedIsResumable(s, run, input, c);
      MidIntegrationIsMidway(s, run, t, count);
      ResumesFromTheMiddle(s, run, t, input, c);
    }
  }

  /** Crash-resume: wherever an integration that would have succeeded is cut, integrating again succeeds with
      the same prepared run and leaves exactly the recorded tree. */
  lemma CutIntegrationResumes(s: State, input: IntegrationInput, c: Checkout, cut: nat)
    requires SoundRecords(s) && Trusted(IntegrateCandidate(input, c)) && IntegratePlan(s, input, c).outcome.Done?
    ensures var done, t := IntegratePlan(s, input, c).outcome, Perform(s, Cut(IntegratePlan(s, input, c).writes, cut));
            && IntegratePlan(t, input, c).outcome == done
            && done.run.integration.Some?
            && Perform(t, IntegratePlan(t, input, c).writes).files == done.run.integration.value.sourceAfter
  {
    DoneIntegratesRun(s, input, c);
    var run :| IntegratesRun(s, input, c, run);
    IntegrationIsApplied(s, input, c, run);
    AppliedResumes(s, input, c, run, IntegratePlan(s, input, c), cut);
  }

  lemma CutOfApplied(s: State, run: Run, writes: seq<Write>, cut: nat)
    requires run.integration.Some? && EvidenceRecorded(run, run.integration.value)
    requires s.active in [None, Some(run.task.id)] && (run.task.id in s.records ==> s.records[run.task.id] == run)
    requires writes == TakenUp(s, run) + Replacements(run.integration.value, run.task.scope) + [Save(Marked(run))]
    ensures var t := Perform(s, Cut(writes, cut));
            t == s || exists count | 0 <= count <= |run.task.scope| :: MidIntegration(s, run, t, count)
  {
    var before, all := TakenUp(s, run), Replacements(run.integration.value, run.task.scope);
    var n := |run.task.scope|;
    if cut <= |before| {
      EarlyCut(s, run, cut);
      assert Cut(writes, cut) == before[..cut];
    } else if cut <= |before| + n {
      var count := cut - |before|;
      ReplacementsPrefix(run.integration.value, run.task.scope, count);
      assert Cut(writes, cut) == before + all[..count] + [];
      CutIsMidIntegration(s, run, count, false);
    } else {
      assert Cut(writes, cut) == writes && run.task.scope[..n] == run.task.scope;
      CutIsMidIntegration(s, run, n, true);
    }
  }

  // ----- Any number of cuts -----

  /** The state after integrating again and again, each time cut after so many writes. */
  function CutRepeatedly(s: State, input: IntegrationInput, c: Checkout, cuts: seq<nat>): State {
    if cuts == [] then s
    else
      var t := CutRepeatedly(s, input, c, cuts[..|cuts| - 1]);
      Perform(t, Cut(IntegratePlan(t, input, c).writes, cuts[|cuts| - 1]))
  }

  lemma MidwayTwice(s: State, run: Run, t: State, u: State, count: nat)
    requires run.integration.Some? && EvidenceRecorded(run, run.integration.value) && count <= |run.task.scope|
    requires Midway(s, run, t) && MidIntegration(t, t.records[run.task.id], u, count)
    ensures Midway(s, run, u)
  {
    RecordedEvidence(run);
    Apply.CrashStaysResumable(EvidenceFor(run), t.files, count);
  }

  /** One more cut from the middle is still the middle. */
  lemma CutStaysMidway(s: State, run: Run, t: State, input: IntegrationInput, c: Checkout, cut: nat)
    requires run.integration.Some? && EvidenceRecorded(run, run.integration.value)
    requires Midway(s, run, t) && ApplyRefusal(s, run, input, c).None?
    requires s.kind == Main && run.status == Active && run.task.owner == input.owner && run.task.id == input.id
    ensures Midway(s, run, Perform(t, Cut(IntegratePlan(t, input, c).writes, cut)))
  {
    ResumesFromTheMiddle(s, run, t, input, c);
    var now := t.records[input.id];
    CutOfApplied(t, now, IntegratePlan(t, input, c).writes, cut);
    var u := Perform(t, Cut(IntegratePlan(t, input, c).writes, cut));
    if u != t {
      var count :| 0 <= count <= |now.task.scope| && MidIntegration(t, now, u, count);
      MidwayTwice(s, run, t, u, count);
    }
  }

  lemma {:induction false} CutsStayMidway(s: State, run: Run, input: IntegrationInput, c: Checkout, cuts: seq<nat>)
    requires IntegratesRun(s, input, c, run) && IntegratePlan(s, input, c).outcome.Done?
    ensures CutRepeatedly(s, input, c, cuts) == s || Midway(s, run, CutRepeatedly(s, input, c, cuts))
  {
    if cuts != [] {
      var front := cuts[..|cuts| - 1];
      CutsStayMidway(s, run, input, c, front);
      IntegrationIsApplied(s, input, c, run);
      FirstCut(s, run, input, c, IntegratePlan(s, input, c), cuts[|cuts| - 1]);
      var t := CutRepeatedly(s, input, c, front);
      if t != s {
        CutStaysMidway(s, run, t, input, c, cuts[|cuts| - 1]);
      }
    }
  }

  lemma FirstCut(s: State, run: Run, input: IntegrationInput, c: Checkout, plan: Plan, cut: nat)
    requires IntegratesRun(s, input, c, run) && plan == ApplyPlan(s, run, input, c, TakenUp(s, run))
             && plan.outcome.Done?
    ensures ApplyRefusal(s, run, input, c).None?
    ensures Perform(s, Cut(plan.writes, cut)) == s || Midway(s, run, Perform(s, Cut(plan.writes, cut)))
  {
    CutOfApplied(s, run, plan.writes, cut);
    var t := Perform(s, Cut(plan.writes, cut));
    if t != s {
      var count :| 0 <= count <= |run.task.scope| && MidIntegration(s, run, t, count);
      GuardedIsResumable(s, run, input, c);
      MidIntegrationIsMidway(s, run, t, count);
    }
  }

  /** The attempt ends with this prepared run and exactly its recorded tree. */
  ghost predicate EndsPrepared(t: State, input: IntegrationInput, c: Checkout, run: Run)
    requires run.integration.Some?
  {
    var plan := IntegratePlan(t, input, c);
    plan.outcome == Done(Marked(run)) && Perform(t, plan.writes).files == run.integration.value.sourceAfter
  }

  lemma AppliedEndsPrepared(s: State, input: IntegrationInput, c: Checkout, run: Run)
    requires IntegratesRun(s, input, c, run) && IntegratePlan(s, input, c).outcome.Done?
    ensures ApplyRefusal(s, run, input, c).None? && EndsPrepared(s, input, c, run)
  {
    IntegrationIsApplied(s, input, c, run);
    MismatchIsUnreachable(s, run, input, c, TakenUp(s, run));
  }

  lemma CutsEndPrepared(s: State, input: IntegrationInput, c: Checkout, run: Run, t: State)
    requires IntegratesRun(s, input, c, run) && IntegratePlan(s, input, c).outcome.Done?
    requires t == s || Midway(s, run, t)
    ensures EndsPrepared(t, input, c, run)
  {
    AppliedEndsPrepared(s, input, c, run);
    if t != s {
      ResumesFromTheMiddle(s, run, t, input, c);
    }
  }

  /** However often an integration that would have succeeded is cut, and wherever, integrating once more
      succeeds with the same prepared run and leaves exactly the recorded tree. */
  lemma AnyNumberOfCutsResumes(s: State, input: IntegrationInput, c: Checkout, cuts: seq<nat>)
    requires SoundRecords(s) && Trusted(IntegrateCandidate(input, c)) && IntegratePlan(s, input, c).outcome.Done?
    ensures var run, t := IntegratePlan(s, input, c).outcome.run, CutRepeatedly(s, input, c, cuts);
            run.integration.Some? && EndsPrepared(s, input, c, run) && EndsPrepared(t, input, c, run)
  {
    DoneIntegratesRun(s, input, c);
    var run :| IntegratesRun(s, input, c, run);
    AppliedEndsPrepared(s, input, c, run);
    CutsStayMidway(s, run, input, c, cuts);
    CutsEndPrepared(s, input, c, run, CutRepeatedly(s, input, c, cuts));
    assert Marked(Marked(run)) == Marked(run);
  }

  // ----- The final mismatch -----

  lemma PreparationNeverMismatches(s: State, input: IntegrationInput, c: Checkout)
    ensures PrepareIntegration(s, input, c) != Unready(SourceNotReady)
  {
  }

  lemma AdoptionNeverMismatches(s: State, run: Run, input: IntegrationInput, c: Checkout)
    requires run.integration.Some? && EvidenceRecorded(run, run.integration.value)
    ensures AdoptPlan(s, run, input, c).outcome != Refused(SourceNotReady)
  {
    MismatchIsUnreachable(s, run, input, c, TakenUp(s, run));
  }

  /** In no run, with any crashes and interference, does an integration fail its final comparison. */
  lemma FinalMismatchNeverHappens(s: State, trace: seq<Happening>, input: IntegrationInput, c: Checkout)
    requires Initial(s) && AllPossible(trace) && Trusted(IntegrateCandidate(input, c))
    ensures IntegratePlan(RunOf(s, trace), input, c).outcome != Refused(SourceNotReady)
  {
    var t := RunOf(s, trace);
    EveryRunIsDurable(s, trace);
    if input.id in t.records {
      assert Soundness()(RecordAt(t, input.id));
      if t.records[input.id].integration.Some? {
        AdoptionNeverMismatches(t, t.records[input.id], input, c);
      }
    } else {
      PreparationNeverMismatches(t, input, c);
      if PrepareIntegration(t, input, c).Ready? {
        PreparationMeets(t, input, c);
        PreparedHistory(t, input, c, c.record.value, Merge(t.files, Elements(c.record.value.task.scope), c.source));
        AdoptionNeverMismatches(t, PrepareIntegration(t, input, c).run, input, c);
      }
    }
  }
}
