/** The operation lock of one evidence directory, as a state machine over its file writes.

    Processes interleave and may crash between any two steps. A process identity (pid and start time) is
    never reused; a child process group outlives its parent's crash and ends at any time. */
module OperationLock {
  import opened Basics

  datatype Phase = Idle | Starting | Running | Unconfirmed
  datatype Lock = Lock(owner: nat, nonce: nat, phase: Phase, child: Option<nat>)

  /** Where a process is inside `withOperationLock` and `runCommand`. */
  datatype Control =
    | Leased
    | Holding(nonce: nat)
    | AboutToSpawn(nonce: nat)
    | Spawned(nonce: nat, group: Option<nat>)
    | Awaiting(nonce: nat, group: Option<nat>)
    | Unlinked

  datatype State = State(
    alive: set<nat>,
    lease: Option<nat>,
    lock: Option<Lock>,
    groups: set<nat>,
    control: map<nat, Control>,
    unused: nat)

  datatype Step =
    | ProcessStarts(p: nat)
    | AcquireLease(p: nat)
    | WriteLock(p: nat)
    | MarkStarting(p: nat)
    | Spawn(p: nat, succeeds: bool)
    | MarkRunning(p: nat)
    | RunningWriteFails(p: nat)
    | Close(p: nat, doubt: bool)
    | Unlink(p: nat)
    | ReleaseLease(p: nat)
    | GroupExits(group: nat)
    | Crash(p: nat)
    | Recover(p: nat, nonce: nat)

  const INITIAL := State({}, None, None, {}, map[], 0)

  predicate At(s: State, p: nat) {
    p in s.control && s.lock.Some?
  }

  /** `recoverOperation` under the lease: the owner is dead, no child may be starting, no known child lives. */
  predicate Recoverable(s: State, nonce: nat) {
    && s.lock.Some?
    && var lock := s.lock.value;
       && lock.nonce == nonce && lock.owner !in s.alive && lock.phase != Starting
       && (lock.child.Some? ==> lock.child.value !in s.groups)
  }

  function Goto(s: State, p: nat, control: Control): State {
    s.(control := s.control[p := control])
  }

  function SetLock(s: State, phase: Phase, child: Option<nat>): State
    requires s.lock.Some?
  {
    s.(lock := Some(s.lock.value.(phase := phase, child := if child.Some? then child else s.lock.value.child)))
  }

  /** One step; a step that is not enabled leaves the state unchanged. */
  function Apply(s: State, step: Step): State {
    match step
    case ProcessStarts(p) =>
      if p >= s.unused then s.(alive := s.alive + {p}, unused := p + 1) else s
    case AcquireLease(p) =>
      if p in s.alive && s.lease.None? && p !in s.control then Goto(s.(lease := Some(p)), p, Leased) else s
    case WriteLock(p) =>
      if p !in s.control || s.control[p] != Leased then s
      else if s.lock.Some? then s.(lease := None, control := s.control - {p})
      else Goto(s.(lock := Some(Lock(p, s.unused, Idle, None)), unused := s.unused + 1), p, Holding(s.unused))
    case MarkStarting(p) =>
      if At(s, p) && s.control[p].Holding? && s.lock.value.owner == p
      then Goto(SetLock(s, Starting, None), p, AboutToSpawn(s.control[p].nonce)) else s
    case Spawn(p, succeeds) =>
      if p !in s.control || !s.control[p].AboutToSpawn? then s
      else if succeeds then
        Goto(s.(groups := s.groups + {s.unused}, unused := s.unused + 1), p,
             Spawned(s.control[p].nonce, Some(s.unused)))
      else Goto(s, p, Spawned(s.control[p].nonce, None))
    case MarkRunning(p) =>
      if At(s, p) && s.control[p].Spawned? && s.lock.value.owner == p
      then Goto(SetLock(s, Running, s.control[p].group), p, Awaiting(s.control[p].nonce, s.control[p].group)) else s
    case RunningWriteFails(p) =>
      if p in s.control && s.control[p].Spawned? then Goto(s, p, Holding(s.control[p].nonce)) else s
    case Close(p, doubt) =>
      if !At(s, p) || !s.control[p].Awaiting? then s
      else
        var group := s.control[p].group;
        var survives := group.Some? && (doubt || group.value in s.groups);
        Goto(if survives then SetLock(s, Unconfirmed, group) else s, p, Holding(s.control[p].nonce))
    case Unlink(p) =>
      if p !in s.control || !s.control[p].Holding? then s
      else if s.lock.Some? && s.lock.value.nonce == s.control[p].nonce && s.lock.value.phase != Unconfirmed
      then Goto(s.(lock := None), p, Unlinked)
      else Goto(s, p, Unlinked)
    case ReleaseLease(p) =>
      if p in s.control && s.control[p] == Unlinked then s.(lease := None, control := s.control - {p}) else s
    case GroupExits(group) => s.(groups := s.groups - {group})
    case Crash(p) =>
      s.(alive := s.alive - {p}, control := s.control - {p}, lease := if s.lease == Some(p) then None else s.lease)
    case Recover(p, nonce) =>
      if p in s.alive && s.lease.None? && Recoverable(s, nonce) then s.(lock := None) else s
  }

  function Trace(s: State, steps: seq<Step>): State {
    if steps == [] then s else Apply(Trace(s, steps[..|steps| - 1]), steps[|steps| - 1])
  }

  /** The step starts an operation: its exclusive lock write succeeds. */
  predicate Starts(s: State, step: Step) {
    step.WriteLock? && step.p in s.control && s.control[step.p] == Leased && s.lock.None?
  }

  /** The two steps that lose track of a child: starting one more command under a lock left unconfirmed, and
      failing to record the child just spawned. */
  predicate LosesTrack(s: State, step: Step) {
    || (step.MarkStarting? && At(s, step.p) && s.control[step.p].Holding? && s.lock.value.owner == step.p
        && s.lock.value.phase == Unconfirmed)
    || (step.RunningWriteFails? && step.p in s.control && s.control[step.p].Spawned?)
  }

  /** A step that loses track is harmless when no child can be alive. */
  predicate Disciplined(s: State, step: Step) {
    LosesTrack(s, step) ==> s.groups == {}
  }

  predicate DisciplinedTrace(s: State, steps: seq<Step>) {
    steps == [] ||
    (DisciplinedTrace(s, steps[..|steps| - 1]) && Disciplined(Trace(s, steps[..|steps| - 1]), steps[|steps| - 1]))
  }

  // ----- The invariant -----

  /** Only the lease holder is inside the protocol. */
  ghost predicate LeaseExclusive(s: State) {
    && (forall p | p in s.control :: s.lease == Some(p) && p in s.alive)
    && (s.lease.Some? ==> s.lease.value in s.control)
    && (forall p | p in s.alive :: p < s.unused)
  }

  /** A group that may be alive is covered by the lock: its number is recorded, or a start is in progress. */
  ghost predicate Covered(s: State) {
    && (s.lock.None? ==> s.groups == {})
    && (s.lock.Some? ==>
          match s.lock.value.phase
          case Idle => s.groups == {}
          case Starting => true
          case Running => s.groups <= (if s.lock.value.child.Some? then {s.lock.value.child.value} else {})
          case Unconfirmed => s.groups <= (if s.lock.value.child.Some? then {s.lock.value.child.value} else {}))
  }

  /** The lock file agrees with where its owner is. */
  ghost predicate ControlAgrees(s: State, p: nat)
    requires p in s.control
  {
    match s.control[p]
    case Leased => true
    case Holding(nonce) =>
      s.lock.Some? && s.lock.value.owner == p && s.lock.value.nonce == nonce
      && (s.lock.value.phase != Unconfirmed ==> s.groups == {})
    case AboutToSpawn(nonce) =>
      s.lock.Some? && s.lock.value.owner == p && s.lock.value.nonce == nonce && s.lock.value.phase == Starting
      && s.groups == {}
    case Spawned(nonce, group) =>
      s.lock.Some? && s.lock.value.owner == p && s.lock.value.nonce == nonce && s.lock.value.phase == Starting
      && s.groups <= (if group.Some? then {group.value} else {})
    case Awaiting(nonce, group) =>
      s.lock.Some? && s.lock.value.owner == p && s.lock.value.nonce == nonce && s.lock.value.phase == Running
      && s.groups <= (if group.Some? then {group.value} else {})
      && (group.Some? ==> s.lock.value.child == group)
    case Unlinked => true
  }

  ghost predicate Invariant(s: State) {
    LeaseExclusive(s) && Covered(s) && forall p | p in s.control :: ControlAgrees(s, p)
  }

  lemma StepKeepsInvariant(s: State, step: Step)
    requires Invariant(s) && Disciplined(s, step)
    ensures Invariant(Apply(s, step))
  {
    var t := Apply(s, step);
    if p :| p in s.control {
      assert ControlAgrees(s, p);
      assert forall q | q in s.control :: q == p;
    }
    forall q | q in t.control
      ensures ControlAgrees(t, q)
    {
      if q in s.control {
        assert ControlAgrees(s, q);
      }
    }
  }

  /** The discipline is exact: a step keeps the invariant if and only if it is disciplined. */
  lemma DisciplineIsExact(s: State, step: Step)
    requires Invariant(s)
    ensures Invariant(Apply(s, step)) <==> Disciplined(s, step)
  {
    if Disciplined(s, step) {
      StepKeepsInvariant(s, step);
    } else {
      var t := Apply(s, step);
      assert step.p in t.control;
      assert !ControlAgrees(t, step.p);
    }
  }

  lemma {:induction false} TraceKeepsInvariant(steps: seq<Step>)
    requires DisciplinedTrace(INITIAL, steps)
    ensures Invariant(Trace(INITIAL, steps))
  {
    if steps != [] {
      var front := steps[..|steps| - 1];
      TraceKeepsInvariant(front);
      StepKeepsInvariant(Trace(INITIAL, front), steps[|steps| - 1]);
    }
  }

  /** Fencing: over every disciplined interleaving with crashes, an operation starts only when no child
      process group of an earlier operation can still be alive. */
  lemma NoStartWhileAChildMayLive(steps: seq<Step>, next: Step)
    requires DisciplinedTrace(INITIAL, steps) && Starts(Trace(INITIAL, steps), next)
    ensures Trace(INITIAL, steps).groups == {}
  {
    TraceKeepsInvariant(steps);
  }

  /** Mutual exclusion: at most one process is inside the protocol. */
  lemma OneOperationAtATime(steps: seq<Step>, p: nat, q: nat)
    requires DisciplinedTrace(INITIAL, steps)
    requires p in Trace(INITIAL, steps).control && q in Trace(INITIAL, steps).control
    ensures p == q
  {
    TraceKeepsInvariant(steps);
  }

  /** Recovery removes a lock only when its owner is dead and no group can be alive. */
  lemma RecoveryIsSafe(steps: seq<Step>, p: nat, nonce: nat)
    requires DisciplinedTrace(INITIAL, steps)
    ensures var s := Trace(INITIAL, steps);
            s.lock.Some? && Apply(s, Recover(p, nonce)).lock.None? ==> s.groups == {} && s.lock.value.owner !in s.alive
  {
    TraceKeepsInvariant(steps);
  }

  /** A crash between the starting record and the running record holds the directory until inspected: no
      step of any process removes that lock again. */
  lemma {:induction false} UncertainStartStaysHeld(s: State, steps: seq<Step>)
    requires Invariant(s) && DisciplinedTrace(s, steps)
    requires s.lock.Some? && s.lock.value.phase == Starting && s.lock.value.owner !in s.alive
             && s.lock.value.owner < s.unused
    ensures Invariant(Trace(s, steps))
    ensures Trace(s, steps).lock == s.lock
    ensures s.lock.value.owner !in Trace(s, steps).alive && Trace(s, steps).unused >= s.unused
  {
    if steps != [] {
      var front, last := steps[..|steps| - 1], steps[|steps| - 1];
      UncertainStartStaysHeld(s, front);
      StepKeepsInvariant(Trace(s, front), last);
      var t := Trace(s, front);
      if p :| p in t.control {
        assert ControlAgrees(t, p) && forall q | q in t.control :: q == p;
      }
    }
  }

  // ----- The discipline is needed -----

  lemma Unroll(s: State, front: seq<Step>, step: Step)
    ensures Trace(s, front + [step]) == Apply(Trace(s, front), step)
  {
    assert (front + [step])[..|front|] == front;
  }

  /** The process closes its command, unlinks and releases; another takes the lease. */
  function HandOver(s: State, p: nat, q: nat): State {
    Apply(Apply(Apply(s, Unlink(p)), ReleaseLease(p)), AcquireLease(q))
  }

  /** One more command under the unconfirmed lock, whose own child exits. */
  function Forget(s: State, p: nat, q: nat): State {
    var running := Apply(Apply(Apply(s, MarkStarting(p)), Spawn(p, true)), MarkRunning(p));
    HandOver(Apply(Apply(running, GroupExits(s.unused)), Close(p, false)), p, q)
  }

  /** Starting one more command under an unconfirmed lock forgets the surviving group: from every such state
      another process can start an operation while that group is alive. */
  lemma SecondCommandForgetsTheFirst(s: State, p: nat, q: nat, survivor: nat)
    requires Invariant(s) && p in s.control && s.control[p].Holding?
    requires s.lock.value.phase == Unconfirmed && survivor in s.groups && survivor < s.unused
    requires q in s.alive && q != p
    ensures var t := Forget(s, p, q);
            Starts(t, WriteLock(q)) && survivor in t.groups
  {
    assert ControlAgrees(s, p);
    var a := Apply(s, MarkStarting(p));
    var b := Apply(a, Spawn(p, true));
    assert b.control[p] == Spawned(s.control[p].nonce, Some(s.unused)) && survivor in b.groups;
    var c := Apply(Apply(b, MarkRunning(p)), GroupExits(s.unused));
    assert survivor in c.groups && s.unused !in c.groups;
    var d := Apply(Apply(Apply(c, Close(p, false)), Unlink(p)), ReleaseLease(p));
    assert d.lock.None? && d.lease.None? && q !in d.control && q in d.alive;
  }

  /** If the write that records the child fails, the operation's own cleanup unlinks the lock while the child
      lives, and another process can start an operation. */
  lemma FailedRunningWriteFreesTheLock(s: State, p: nat, q: nat, group: nat)
    requires Invariant(s) && p in s.control && s.control[p].Spawned? && s.control[p].group == Some(group)
    requires group in s.groups && q in s.alive && q != p
    ensures var t := HandOver(Apply(s, RunningWriteFails(p)), p, q);
            Starts(t, WriteLock(q)) && group in t.groups
  {
    assert ControlAgrees(s, p);
  }

  // ----- Both happen from the start -----

  const ONE_COMMAND: seq<Step> :=
    [ProcessStarts(0), ProcessStarts(1), AcquireLease(0), WriteLock(0), MarkStarting(0), Spawn(0, true)]

  /** The first command's group survives its close. */
  const SURVIVING: seq<Step> := ONE_COMMAND + [MarkRunning(0)] + [Close(0, true)]

  const SECOND_COMMAND: seq<Step> :=
    [MarkStarting(0), Spawn(0, true), MarkRunning(0), GroupExits(4), Close(0, false)]

  const HANDING_OVER: seq<Step> := [Unlink(0), ReleaseLease(0), AcquireLease(1)]

  lemma {:induction false} TraceConcat(s: State, first: seq<Step>, second: seq<Step>)
    ensures Trace(s, first + second) == Trace(Trace(s, first), second)
  {
    if second == [] {
      assert first + second == first;
    } else {
      var front, last := second[..|second| - 1], second[|second| - 1];
      TraceConcat(s, first, front);
      assert first + second == first + front + [last];
      Unroll(s, first + front, last);
    }
  }

  lemma HandingOver(s: State)
    ensures Trace(s, HANDING_OVER) == HandOver(s, 0, 1)
  {
    assert HANDING_OVER == [] + [Unlink(0)] + [ReleaseLease(0)] + [AcquireLease(1)];
    Unroll(s, [], Unlink(0));
    Unroll(s, [] + [Unlink(0)], ReleaseLease(0));
    Unroll(s, [] + [Unlink(0)] + [ReleaseLease(0)], AcquireLease(1));
  }

  lemma OneCommand()
    ensures Trace(INITIAL, ONE_COMMAND)
            == State({0, 1}, Some(0), Some(Lock(0, 2, Starting, None)), {3}, map[0 := Spawned(2, Some(3))], 4)
  {
    var a, b := [ProcessStarts(0)], [ProcessStarts(0), ProcessStarts(1)];
    var c, d := b + [AcquireLease(0)], b + [AcquireLease(0)] + [WriteLock(0)];
    Unroll(INITIAL, [], ProcessStarts(0));
    assert a == [] + [ProcessStarts(0)] && b == a + [ProcessStarts(1)];
    Unroll(INITIAL, a, ProcessStarts(1));
    assert Trace(INITIAL, b) == State({0, 1}, None, None, {}, map[], 2);
    Unroll(INITIAL, b, AcquireLease(0));
    Unroll(INITIAL, c, WriteLock(0));
    assert Trace(INITIAL, d) == State({0, 1}, Some(0), Some(Lock(0, 2, Idle, None)), {}, map[0 := Holding(2)], 3);
    Unroll(INITIAL, d, MarkStarting(0));
    Unroll(INITIAL, d + [MarkStarting(0)], Spawn(0, true));
    assert ONE_COMMAND == d + [MarkStarting(0)] + [Spawn(0, true)];
  }

  lemma OneCommandIsDisciplined()
    ensures Invariant(Trace(INITIAL, ONE_COMMAND))
  {
    OneCommand();
    var s := Trace(INITIAL, ONE_COMMAND);
    assert ControlAgrees(s, 0);
  }

  /** From the initial state, a failed record of the child lets the next operation start beside it. */
  lemma FailedWriteReachesABadStart()
    ensures var t := Trace(INITIAL, ONE_COMMAND + [RunningWriteFails(0)] + HANDING_OVER);
            Starts(t, WriteLock(1)) && 3 in t.groups
  {
    OneCommand();
    OneCommandIsDisciplined();
    var s := Trace(INITIAL, ONE_COMMAND);
    Unroll(INITIAL, ONE_COMMAND, RunningWriteFails(0));
    TraceConcat(INITIAL, ONE_COMMAND + [RunningWriteFails(0)], HANDING_OVER);
    HandingOver(Apply(s, RunningWriteFails(0)));
    FailedRunningWriteFreesTheLock(s, 0, 1, 3);
  }

  lemma FirstSurvives()
    ensures Trace(INITIAL, SURVIVING)
            == State({0, 1}, Some(0), Some(Lock(0, 2, Unconfirmed, Some(3))), {3}, map[0 := Holding(2)], 4)
    ensures Invariant(Trace(INITIAL, SURVIVING))
  {
    OneCommand();
    Unroll(INITIAL, ONE_COMMAND, MarkRunning(0));
    Unroll(INITIAL, ONE_COMMAND + [MarkRunning(0)], Close(0, true));
    assert ControlAgrees(Trace(INITIAL, SURVIVING), 0);
  }

  /** From the initial state, a second command under an unconfirmed lock lets the next operation start while
      the first command's group is alive. */
  lemma SecondCommandReachesABadStart()
    ensures var t := Trace(INITIAL, SURVIVING + SECOND_COMMAND + HANDING_OVER);
            Starts(t, WriteLock(1)) && 3 in t.groups
  {
    FirstSurvives();
    var s := Trace(INITIAL, SURVIVING);
    var second: seq<Step> :=
      [] + [MarkStarting(0)] + [Spawn(0, true)] + [MarkRunning(0)] + [GroupExits(4)] + [Close(0, false)];
    assert second == SECOND_COMMAND;
    Unroll(s, [], MarkStarting(0));
    Unroll(s, [] + [MarkStarting(0)], Spawn(0, true));
    Unroll(s, [] + [MarkStarting(0)] + [Spawn(0, true)], MarkRunning(0));
    Unroll(s, [] + [MarkStarting(0)] + [Spawn(0, true)] + [MarkRunning(0)], GroupExits(4));
    Unroll(s, [] + [MarkStarting(0)] + [Spawn(0, true)] + [MarkRunning(0)] + [GroupExits(4)], Close(0, false));
    TraceConcat(INITIAL, SURVIVING, SECOND_COMMAND);
    TraceConcat(INITIAL, SURVIVING + SECOND_COMMAND, HANDING_OVER);
    HandingOver(Trace(s, SECOND_COMMAND));
    SecondCommandForgetsTheFirst(s, 0, 1, 3);
  }

  // ----- The discipline, by what it prevents -----

  lemma {:induction false} TraceKeepsInvariantFrom(s: State, steps: seq<Step>)
    requires Invariant(s) && DisciplinedTrace(s, steps)
    ensures Invariant(Trace(s, steps))
  {
    if steps != [] {
      var front := steps[..|steps| - 1];
      TraceKeepsInvariantFrom(s, front);
      StepKeepsInvariant(Trace(s, front), steps[|steps| - 1]);
    }
  }

  /** After these steps, none of which loses track of a child that may live, an operation starts beside a living
      group. */
  predicate StartsBeside(s: State, steps: seq<Step>, next: Step) {
    DisciplinedTrace(s, steps) && Starts(Trace(s, steps), next) && Trace(s, steps).groups != {}
  }

  ghost predicate LeadsToABadStart(s: State) {
    exists steps, next :: StartsBeside(s, steps, next)
  }

  lemma DisciplinedSnoc(s: State, front: seq<Step>, step: Step)
    ensures DisciplinedTrace(s, front + [step]) <==> DisciplinedTrace(s, front) && Disciplined(Trace(s, front), step)
  {
    assert (front + [step])[..|front|] == front;
  }

  /** A process inside the protocol that no longer covers a group unlinks its lock, and the next operation starts. */
  lemma UncoveredIsTakenOver(s: State, front: seq<Step>, p: nat)
    requires var t := Trace(s, front);
             && p in t.control && t.control[p].Holding? && t.control.Keys == {p} && t.lock.Some?
             && t.lock.value.nonce == t.control[p].nonce && t.lock.value.phase != Unconfirmed && t.groups != {}
    requires DisciplinedTrace(s, front)
    ensures LeadsToABadStart(s)
  {
    var t := Trace(s, front);
    var q := if t.unused > p then t.unused else p + 1;
    var one, two, three := front + [Unlink(p)], front + [Unlink(p)] + [ReleaseLease(p)],
      front + [Unlink(p)] + [ReleaseLease(p)] + [ProcessStarts(q)];
    Unroll(s, front, Unlink(p));
    Unroll(s, one, ReleaseLease(p));
    Unroll(s, two, ProcessStarts(q));
    Unroll(s, three, AcquireLease(q));
    DisciplinedSnoc(s, front, Unlink(p));
    DisciplinedSnoc(s, one, ReleaseLease(p));
    DisciplinedSnoc(s, two, ProcessStarts(q));
    DisciplinedSnoc(s, three, AcquireLease(q));
    assert StartsBeside(s, three + [AcquireLease(q)], WriteLock(q));
  }

  /** A second command that fails to spawn closes at once, and leaves a lock that no longer shows the first. */
  lemma ForgottenIsTakenOver(s: State, p: nat)
    requires Invariant(s) && p in s.control && s.control[p].Holding? && s.lock.value.phase == Unconfirmed
    requires s.groups != {}
    ensures LeadsToABadStart(Apply(s, MarkStarting(p)))
  {
    assert ControlAgrees(s, p);
    var t, none := Apply(s, MarkStarting(p)), [];
    var one, two := none + [Spawn(p, false)], none + [Spawn(p, false)] + [MarkRunning(p)];
    Unroll(t, none, Spawn(p, false));
    Unroll(t, one, MarkRunning(p));
    Unroll(t, two, Close(p, false));
    DisciplinedSnoc(t, none, Spawn(p, false));
    DisciplinedSnoc(t, one, MarkRunning(p));
    DisciplinedSnoc(t, two, Close(p, false));
    UncoveredIsTakenOver(t, two + [Close(p, false)], p);
  }

  /** The discipline is exact in what it prevents: a step lets an operation start beside a living group, with no
      further loss of track, if and only if the step itself loses track of a child that may live. */
  lemma LosingTrackIsExact(s: State, step: Step)
    requires Invariant(s)
    ensures LeadsToABadStart(Apply(s, step)) <==> !Disciplined(s, step)
  {
    var t := Apply(s, step);
    if Disciplined(s, step) {
      StepKeepsInvariant(s, step);
      forall steps, next
        ensures !StartsBeside(t, steps, next)
      {
        if DisciplinedTrace(t, steps) {
          TraceKeepsInvariantFrom(t, steps);
        }
      }
    } else if step.MarkStarting? {
      ForgottenIsTakenOver(s, step.p);
    } else {
      assert ControlAgrees(s, step.p);
      assert Trace(t, []) == t;
      UncoveredIsTakenOver(t, [], step.p);
    }
  }

  // ----- One command per lock -----

  /** The step begins a command under the lock its process holds. */
  predicate Begins(s: State, step: Step) {
    step.MarkStarting? && At(s, step.p) && s.control[step.p].Holding? && s.lock.value.owner == step.p
  }

  /** Commands begun since an operation last started. */
  function Commands(steps: seq<Step>): nat {
    if steps == [] then 0
    else
      var front, last := steps[..|steps| - 1], steps[|steps| - 1];
      if Starts(Trace(INITIAL, front), last) then 0
      else Commands(front) + if Begins(Trace(INITIAL, front), last) then 1 else 0
  }

  /** Every operation runs at most one command, and every running record is written. */
  predicate OneCommandEach(steps: seq<Step>) {
    && (forall k | 0 <= k < |steps| :: !steps[k].RunningWriteFails?)
    && (forall k | 0 <= k <= |steps| :: Commands(steps[..k]) <= 1)
  }

  lemma {:induction false} BegunIsCounted(steps: seq<Step>)
    requires DisciplinedTrace(INITIAL, steps)
    ensures var s := Trace(INITIAL, steps);
            s.lock.Some? && s.lock.value.phase != Idle ==> Commands(steps) >= 1
  {
    if steps != [] {
      var front, last := steps[..|steps| - 1], steps[|steps| - 1];
      BegunIsCounted(front);
      TraceKeepsInvariant(front);
      var s := Trace(INITIAL, front);
      if p :| p in s.control {
        assert ControlAgrees(s, p) && forall q | q in s.control :: q == p;
      }
    }
  }

  /** One command per operation and no failed record are enough: then no step loses track. */
  lemma {:induction false} OneCommandIsEnough(steps: seq<Step>)
    requires OneCommandEach(steps)
    ensures DisciplinedTrace(INITIAL, steps)
  {
    if steps != [] {
      var front, last := steps[..|steps| - 1], steps[|steps| - 1];
      forall k | 0 <= k <= |front|
        ensures Commands(front[..k]) <= 1
      {
        assert front[..k] == steps[..k];
      }
      OneCommandIsEnough(front);
      BegunIsCounted(front);
      assert steps[..|steps|] == steps;
    }
  }

  /** Fencing, by conditions on the caller alone. */
  lemma OneCommandEachIsFenced(steps: seq<Step>, next: Step)
    requires OneCommandEach(steps) && Starts(Trace(INITIAL, steps), next)
    ensures Trace(INITIAL, steps).groups == {}
  {
    OneCommandIsEnough(steps);
    NoStartWhileAChildMayLive(steps, next);
  }
}
