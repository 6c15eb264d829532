/** Once custody is doubtful: which calls may still dispatch, exactly. */
module DispatchInDoubt {
  import opened ApiDispatch

  /** Open requests of living owners are in progress, and a scan lists existing files only. */
  ghost predicate Tended(s: State) {
    && (forall key | key in s.files && s.files[key].status in [Reserved, AwaitingValidation]
                     && s.files[key].owner in s.alive :: key in s.running)
    && (forall c | c in s.calls && s.calls[c].phase.Scanning? :: s.calls[c].phase.todo <= s.files.Keys)
  }

  /** A scanning call that reads this file gives up: its custody is doubtful, or a dead owner left output of the
      same task and packet unvalidated. */
  predicate Blocks(s: State, call: Call, key: Key) {
    || Doubtful(s, key)
    || (key in s.files && s.files[key].status == AwaitingValidation && s.files[key].owner !in s.alive
        && key.task == call.key.task && s.files[key].packet == call.packet)
  }

  /** What a call's place and the files say about it: it holds its reservation, or its file is still free and
      nothing it has yet to look at stops it. */
  predicate MayDispatch(s: State, c: nat) {
    c in s.calls &&
    var call := s.calls[c];
    match call.phase
    case Holding => true
    case Clear => call.key !in s.files
    case Scanning(todo, replay) =>
      && !replay && call.key !in s.files && (call.key.task, call.packet) !in s.holds
      && forall key | key in todo :: !Blocks(s, call, key)
    case _ => false
  }

  // ----- Every reachable state is tended -----

  lemma OpenStays(s: State, step: Step, key: Key)
    requires Sound(s) && Tended(s)
    requires var t := Apply(s, step);
             && key in t.files && t.files[key].status in [Reserved, AwaitingValidation]
             && t.files[key].owner in t.alive
    ensures key in Apply(s, step).running
  {
    if !step.ProcessStarts? && !step.Crash? && step.c in s.calls {
      assert CallSound(s, step.c);
    }
  }

  lemma TodoStays(s: State, step: Step, c: nat)
    requires Tended(s) && c in Apply(s, step).calls && Apply(s, step).calls[c].phase.Scanning?
    ensures Apply(s, step).calls[c].phase.todo <= Apply(s, step).files.Keys
  {
    FilesGrow(s, step);
    if c in s.calls && s.calls[c].phase.Scanning? {
      assert s.calls[c].phase.todo <= s.files.Keys;
    }
  }

  lemma StepKeepsTended(s: State, step: Step)
    requires Sound(s) && Tended(s)
    ensures Tended(Apply(s, step))
  {
    var t := Apply(s, step);
    forall key | key in t.files && t.files[key].status in [Reserved, AwaitingValidation]
      && t.files[key].owner in t.alive
      ensures key in t.running
    {
      OpenStays(s, step, key);
    }
    forall c | c in t.calls && t.calls[c].phase.Scanning?
      ensures t.calls[c].phase.todo <= t.files.Keys
    {
      TodoStays(s, step, c);
    }
  }

  lemma {:induction false} TraceKeepsTended(s: State, steps: seq<Step>)
    requires Sound(s) && Tended(s)
    ensures Sound(Trace(s, steps)) && Tended(Trace(s, steps))
  {
    if steps != [] {
      TraceKeepsTended(s, steps[..|steps| - 1]);
      StepKeepsSound(Trace(s, steps[..|steps| - 1]), steps[|steps| - 1]);
      StepKeepsTended(Trace(s, steps[..|steps| - 1]), steps[|steps| - 1]);
    }
  }

  // ----- A call that may not dispatch never will -----

  /** A file whose owner died is never written again. */
  lemma DeadStays(s: State, step: Step, key: Key)
    requires Sound(s) && key in s.files && s.files[key].owner !in s.alive
    ensures var t := Apply(s, step);
            key in t.files && t.files[key] == s.files[key] && t.files[key].owner !in t.alive
  {
    if !step.ProcessStarts? && !step.Crash? && step.c in s.calls {
      assert CallSound(s, step.c);
      if !Holds(s.calls[step.c].phase) {
        NonHoldersKeepFiles(s, step, key);
      }
    }
  }

  lemma BlockingStays(s: State, step: Step, call: Call, key: Key)
    requires Sound(s) && Blocks(s, call, key)
    ensures Blocks(Apply(s, step), call, key)
  {
    if Doubtful(s, key) {
      DoubtStays(s, step, key);
    } else {
      DeadStays(s, step, key);
    }
  }

  lemma ReadExactly(s: State, c: nat, key: Key)
    requires Sound(s) && Tended(s) && c in s.calls && s.calls[c].phase.Scanning? && key in s.calls[c].phase.todo
    ensures var call, t := s.calls[c], Apply(s, Read(c, key));
            t == Goto(s, c, if Blocks(s, call, key) then Failed
                            else Scanning(call.phase.todo - {key}, call.phase.replay || key == call.key))
  {
    assert CallSound(s, c) && key in s.files;
  }

  lemma HoldsGrow(s: State, step: Step)
    ensures s.holds <= Apply(s, step).holds
  {
  }

  /** Another call's step does not help a call that may not dispatch. */
  lemma OthersDoNotHelp(s: State, step: Step, c: nat)
    requires Sound(s) && !MayDispatch(s, c) && c in s.calls && !Moves(step, c)
    ensures !MayDispatch(Apply(s, step), c)
  {
    var t, call := Apply(s, step), s.calls[c];
    if c in t.calls {
      OthersKeepCall(s, step, c);
      FilesGrow(s, step);
      HoldsGrow(s, step);
      if call.phase.Scanning? {
        if key :| key in call.phase.todo && Blocks(s, call, key) {
          BlockingStays(s, step, call, key);
        }
      }
    }
  }

  lemma ReadingDoesNotHelp(s: State, c: nat, key: Key)
    requires Sound(s) && Tended(s) && !MayDispatch(s, c) && c in s.calls && s.calls[c].phase.Scanning?
    ensures !MayDispatch(Apply(s, Read(c, key)), c)
  {
    var call := s.calls[c];
    if key in call.phase.todo {
      ReadExactly(s, c, key);
      var t := Apply(s, Read(c, key));
      if other :| other in call.phase.todo && Blocks(s, call, other) && other != key {
        assert Blocks(t, t.calls[c], other);
      }
    }
  }

  lemma ListingDoesNotHelp(s: State, c: nat)
    requires Poisoned(s) && c in s.calls && s.calls[c].phase == Listing
    ensures !MayDispatch(Apply(s, List(c)), c)
  {
    var key :| key in s.files && Doubtful(s, key);
    var t := Apply(s, List(c));
    assert key in t.calls[c].phase.todo && Blocks(t, t.calls[c], key);
  }

  lemma OwnStepDoesNotHelp(s: State, step: Step, c: nat)
    requires Sound(s) && Tended(s) && Poisoned(s) && !MayDispatch(s, c) && Moves(step, c)
    ensures !MayDispatch(Apply(s, step), c)
  {
    if c in s.calls {
      if step.Read? && s.calls[c].phase.Scanning? {
        ReadingDoesNotHelp(s, c, step.key);
      } else if step.List? && s.calls[c].phase == Listing {
        ListingDoesNotHelp(s, c);
      }
    }
  }

  lemma StaysSpent(s: State, step: Step, c: nat)
    requires Sound(s) && Tended(s) && Poisoned(s) && !MayDispatch(s, c)
    ensures !MayDispatch(Apply(s, step), c) && Poisoned(Apply(s, step))
  {
    var key :| key in s.files && Doubtful(s, key);
    DoubtStays(s, step, key);
    if Moves(step, c) {
      OwnStepDoesNotHelp(s, step, c);
    } else if c in s.calls {
      OthersDoNotHelp(s, step, c);
    }
  }

  lemma {:induction false} StaysSpentThroughout(s: State, steps: seq<Step>, c: nat)
    requires Sound(s) && Tended(s) && Poisoned(s) && !MayDispatch(s, c)
    ensures !MayDispatch(Trace(s, steps), c) && Poisoned(Trace(s, steps))
  {
    if steps != [] {
      var front := steps[..|steps| - 1];
      StaysSpentThroughout(s, front, c);
      TraceKeepsTended(s, front);
      StaysSpent(Trace(s, front), steps[|steps| - 1], c);
    }
  }

  // ----- A call that may dispatch can -----

  lemma {:induction false} TraceCons(s: State, step: Step, rest: seq<Step>)
    ensures Trace(s, [step] + rest) == Trace(Apply(s, step), rest)
  {
    if rest == [] {
      assert [step] + rest == [step] && [step][..0] == [];
    } else {
      var front, last := rest[..|rest| - 1], rest[|rest| - 1];
      TraceCons(s, step, front);
      assert [step] + rest == ([step] + front) + [last];
      Unroll(s, [step] + front, last);
    }
  }

  /** The reservation is held: the fetch is the next thing the call does. */
  predicate ReadyToFetch(s: State, c: nat) {
    c in s.calls && s.calls[c].phase == Holding
  }

  lemma ReadingOn(s: State, c: nat, key: Key)
    requires Sound(s) && Tended(s) && MayDispatch(s, c) && s.calls[c].phase.Scanning? && key in s.calls[c].phase.todo
    ensures var t := Apply(s, Read(c, key));
            && Sound(t) && Tended(t) && MayDispatch(t, c)
            && t.calls[c].phase == Scanning(s.calls[c].phase.todo - {key}, false)
  {
    ReadExactly(s, c, key);
    assert key in s.files;
    StepKeepsSound(s, Read(c, key));
    StepKeepsTended(s, Read(c, key));
    var t := Apply(s, Read(c, key));
    forall other | other in t.calls[c].phase.todo
      ensures !Blocks(t, t.calls[c], other)
    {
      assert !Blocks(s, s.calls[c], other);
    }
  }

  lemma {:induction false} CanDispatch(s: State, c: nat) returns (steps: seq<Step>)
    requires Sound(s) && Tended(s) && MayDispatch(s, c)
    ensures ReadyToFetch(Trace(s, steps), c)
    decreases if s.calls[c].phase.Scanning? then |s.calls[c].phase.todo| else 0
  {
    if s.calls[c].phase == Holding {
      steps := [];
    } else if s.calls[c].phase == Clear {
      steps := [Reserve(c)];
      TraceCons(s, Reserve(c), []);
      assert [Reserve(c)] + [] == [Reserve(c)];
    } else if s.calls[c].phase.todo == {} {
      TraceCons(s, CheckHolds(c), [Reserve(c)]);
      TraceCons(Apply(s, CheckHolds(c)), Reserve(c), []);
      assert [Reserve(c)] + [] == [Reserve(c)];
      steps := [CheckHolds(c)] + [Reserve(c)];
    } else {
      var key :| key in s.calls[c].phase.todo;
      ReadingOn(s, c, key);
      var rest := CanDispatch(Apply(s, Read(c, key)), c);
      TraceCons(s, Read(c, key), rest);
      steps := [Read(c, key)] + rest;
    }
  }

  // ----- Exactly -----

  ghost predicate CanComeToFetch(s: State, c: nat) {
    exists more :: ReadyToFetch(Trace(s, more), c)
  }

  lemma DispatchesFrom(s: State, c: nat)
    requires Sound(s) && Tended(s) && Poisoned(s)
    ensures CanComeToFetch(s, c) <==> MayDispatch(s, c)
  {
    if MayDispatch(s, c) {
      var more := CanDispatch(s, c);
      assert ReadyToFetch(Trace(s, more), c);
    } else {
      forall more
        ensures !ReadyToFetch(Trace(s, more), c)
      {
        StaysSpentThroughout(s, more, c);
      }
    }
  }

  /** In every reachable state in doubt, a call has a continuation in which it comes to fetch if and only if it may
      dispatch as its place and the files say. */
  lemma DispatchesExactly(steps: seq<Step>, c: nat)
    requires Poisoned(Trace(INITIAL, steps))
    ensures CanComeToFetch(Trace(INITIAL, steps), c) <==> MayDispatch(Trace(INITIAL, steps), c)
  {
    TraceKeepsTended(INITIAL, steps);
    DispatchesFrom(Trace(INITIAL, steps), c);
  }

  lemma {:induction false} FetchedGrows(s: State, more: seq<Step>)
    ensures s.fetched <= Trace(s, more).fetched
  {
    if more != [] {
      FetchedGrows(s, more[..|more| - 1]);
      FetchesGrow(Trace(s, more[..|more| - 1]), more[|more| - 1]);
    }
  }

  lemma {:induction false} NothingFetched(s: State, more: seq<Step>)
    requires Sound(s) && Tended(s) && Poisoned(s) && forall c :: !MayDispatch(s, c)
    ensures Trace(s, more).fetched == s.fetched
  {
    if more != [] {
      var front, last := more[..|more| - 1], more[|more| - 1];
      NothingFetched(s, front);
      FetchesGrow(Trace(s, front), last);
      if last.Fetch? {
        StaysSpentThroughout(s, front, last.c);
      }
    }
  }

  /** In every reachable state in doubt, nothing more is ever fetched if and only if no call may dispatch. */
  lemma DoubtStopsFetchesExactly(steps: seq<Step>)
    requires Poisoned(Trace(INITIAL, steps))
    ensures var s := Trace(INITIAL, steps);
            (forall more :: Trace(s, more).fetched == s.fetched) <==> forall c | c in s.calls :: !MayDispatch(s, c)
  {
    var s := Trace(INITIAL, steps);
    TraceKeepsTended(INITIAL, steps);
    if forall c | c in s.calls :: !MayDispatch(s, c) {
      forall more
        ensures Trace(s, more).fetched == s.fetched
      {
        NothingFetched(s, more);
      }
    } else {
      var c :| c in s.calls && MayDispatch(s, c);
      var more := CanDispatch(s, c);
      FetchedGrows(s, more);
      Unroll(s, more, Fetch(c));
      assert |Trace(s, more + [Fetch(c)]).fetched| > |s.fetched|;
    }
  }
}
