/** Metered API dispatch: one custody file for each request, scanned without a lock by every call.

    Processes interleave between any two file operations and may crash there. A process identity, with its
    boot, is never reused; request files are never removed. */
module ApiDispatch {

  datatype Status = Reserved | CancelledEarly | Rejected | AwaitingValidation | CompletionUnknown | Settled
  /** A custody file is named by the digest of its task and stage request. */
  datatype Key = Key(task: nat, request: nat)
  datatype Evidence = Evidence(packet: nat, status: Status, owner: nat)

  datatype Phase =
    | Checking
    | Listing
    | Scanning(todo: set<Key>, replay: bool)
    | Clear
    | Holding
    | Waiting
    | Validating
    | Withholding
    | Marking
    | Failed
    | Returned

  /** `late` records whether custody was already doubtful when the call listed the directory. */
  datatype Call = Call(key: Key, packet: nat, process: nat, phase: Phase, late: bool)

  datatype State = State(
    alive: set<nat>,
    unused: nat,
    files: map<Key, Evidence>,
    running: set<Key>,
    unknownCharge: bool,
    holds: set<(nat, nat)>,
    calls: map<nat, Call>,
    fetched: seq<Key>)

  datatype Answer = Refusal | HttpError | Completion | Lost

  datatype Step =
    | ProcessStarts(p: nat)
    | Crash(p: nat)
    | Arrive(c: nat, key: Key, packet: nat, p: nat)
    | CheckUnknown(c: nat)
    | List(c: nat)
    | Read(c: nat, key: Key)
    | CheckHolds(c: nat)
    | Reserve(c: nat)
    | CancelEarly(c: nat)
    | Fetch(c: nat)
    | Receive(c: nat, answer: Answer)
    | Validate(c: nat, valid: bool)
    | WriteHold(c: nat)
    | MarkUnknown(c: nat)

  const INITIAL := State({}, 0, map[], {}, false, {}, map[], [])

  /** As seen by a process: the owner still runs and, when it is the reader itself, the request is in progress. */
  predicate LiveTo(s: State, key: Key, reader: nat)
    requires key in s.files
  {
    && s.files[key].status != CompletionUnknown && s.files[key].owner in s.alive
    && (s.files[key].owner != reader || key in s.running)
  }

  /** A completion is unknown, or a request is reserved by an owner that died. */
  predicate Doubtful(s: State, key: Key) {
    key in s.files &&
    (s.files[key].status == CompletionUnknown || (s.files[key].status == Reserved && s.files[key].owner !in s.alive))
  }

  predicate Poisoned(s: State) {
    exists key | key in s.files :: Doubtful(s, key)
  }

  function Goto(s: State, c: nat, phase: Phase): State
    requires c in s.calls
  {
    s.(calls := s.calls[c := s.calls[c].(phase := phase)])
  }

  /** The owner rewrites its custody file, and is no longer in progress when it gives up. */
  function Record(s: State, c: nat, status: Status, phase: Phase): State
    requires c in s.calls
  {
    var call := s.calls[c];
    Goto(s, c, phase).(
      files := if call.key in s.files then s.files[call.key := s.files[call.key].(status := status)] else s.files,
      running := if phase == Failed || phase == Returned then s.running - {call.key} else s.running)
  }

  function ReadOne(s: State, c: nat, key: Key): State
    requires c in s.calls && s.calls[c].phase.Scanning? && key in s.files
  {
    var call, previous := s.calls[c], s.files[key];
    var next := Scanning(call.phase.todo - {key}, call.phase.replay || key == call.key);
    if previous.status !in [Reserved, CompletionUnknown, AwaitingValidation] || LiveTo(s, key, call.process)
       then Goto(s, c, next)
    else if previous.status == AwaitingValidation then
      Goto(s, c, if key.task == call.key.task && previous.packet == call.packet then Failed else next)
    else Goto(s, c, Failed)
  }

  /** One step; a step that is not enabled leaves the state unchanged. */
  function Apply(s: State, step: Step): State {
    match step
    case ProcessStarts(p) => if p >= s.unused then s.(alive := s.alive + {p}, unused := p + 1) else s
    case Crash(p) =>
      s.(alive := s.alive - {p}, calls := map c | c in s.calls && s.calls[c].process != p :: s.calls[c])
    case Arrive(c, key, packet, p) =>
      if p in s.alive && c !in s.calls then s.(calls := s.calls[c := Call(key, packet, p, Checking, false)]) else s
    case CheckUnknown(c) =>
      if c in s.calls && s.calls[c].phase == Checking then Goto(s, c, if s.unknownCharge then Failed else Listing)
         else s
    case List(c) =>
      if c in s.calls && s.calls[c].phase == Listing
      then s.(calls := s.calls[c := s.calls[c].(phase := Scanning(s.files.Keys, false), late := Poisoned(s))]) else s
    case Read(c, key) =>
      if c in s.calls && s.calls[c].phase.Scanning? && key in s.calls[c].phase.todo && key in s.files
         then ReadOne(s, c, key) else s
    case CheckHolds(c) =>
      if c in s.calls && s.calls[c].phase.Scanning? && s.calls[c].phase.todo == {}
      then Goto(s, c, if (s.calls[c].key.task, s.calls[c].packet) in s.holds || s.calls[c].phase.replay then Failed
                else Clear)
      else s
    case Reserve(c) =>
      if c !in s.calls || s.calls[c].phase != Clear then s
      else if s.calls[c].key in s.files then Goto(s, c, Failed)
      else
        var call := s.calls[c];
        Goto(s, c, Holding).(files := s.files[call.key := Evidence(call.packet, Reserved, call.process)],
                             running := s.running + {call.key})
    case CancelEarly(c) =>
      if c in s.calls && s.calls[c].phase == Holding then Record(s, c, CancelledEarly, Failed) else s
    case Fetch(c) =>
      if c in s.calls && s.calls[c].phase == Holding
         then Goto(s, c, Waiting).(fetched := s.fetched + [s.calls[c].key]) else s
    case Receive(c, answer) =>
      if c !in s.calls || s.calls[c].phase != Waiting then s
      else (match answer
            case Refusal => Record(s, c, Rejected, Failed)
            case HttpError => Record(s, c, Settled, Withholding)
            case Completion => Record(s, c, AwaitingValidation, Validating)
            case Lost => Record(s, c, CompletionUnknown, Marking))
    case Validate(c, valid) =>
      if c in s.calls && s.calls[c].phase == Validating
         then Record(s, c, Settled, if valid then Returned else Withholding) else s
    case WriteHold(c) =>
      if c in s.calls && s.calls[c].phase == Withholding
      then Goto(s, c, Failed).(holds := s.holds + {(s.calls[c].key.task, s.calls[c].packet)},
                               running := s.running - {s.calls[c].key}) else s
    case MarkUnknown(c) =>
      if c in s.calls && s.calls[c].phase == Marking
      then Goto(s, c, Failed).(unknownCharge := true, running := s.running - {s.calls[c].key}) else s
  }

  function Trace(s: State, steps: seq<Step>): State {
    if steps == [] then s else Apply(Trace(s, steps[..|steps| - 1]), steps[|steps| - 1])
  }

  // ----- Custody -----

  /** Phases in which a call holds its custody file. */
  predicate Holds(phase: Phase) {
    phase.Holding? || phase.Waiting? || phase.Validating? || phase.Withholding? || phase.Marking?
  }

  function StatusIn(phase: Phase): Status
    requires Holds(phase)
  {
    match phase
    case Holding => Reserved
    case Waiting => Reserved
    case Validating => AwaitingValidation
    case Withholding => Settled
    case Marking => CompletionUnknown
  }

  ghost predicate CallSound(s: State, c: nat)
    requires c in s.calls
  {
    var call := s.calls[c];
    && call.process in s.alive
    && (Holds(call.phase) ==>
          call.key in s.files && s.files[call.key].owner == call.process
            && s.files[call.key].status == StatusIn(call.phase))
    && (call.phase == Holding ==> call.key !in s.fetched)
    && (call.late ==> call.phase == Failed
                      || (call.phase.Scanning? && exists key | key in call.phase.todo :: Doubtful(s, key)))
  }

  ghost predicate Sound(s: State) {
    && (forall c | c in s.calls :: CallSound(s, c))
    && (forall c, d | c in s.calls && d in s.calls && c != d && Holds(s.calls[c].phase) && Holds(s.calls[d].phase) ::
          s.calls[c].key != s.calls[d].key)
    && (forall i | 0 <= i < |s.fetched| :: s.fetched[i] in s.files)
    && (forall i, j | 0 <= i < j < |s.fetched| :: s.fetched[i] != s.fetched[j])
    && (forall p | p in s.alive :: p < s.unused)
    && (forall key | key in s.files :: s.files[key].owner < s.unused)
  }

  /** Doubt about a request is never lifted. */
  lemma DoubtStays(s: State, step: Step, key: Key)
    requires Sound(s) && Doubtful(s, key)
    ensures Doubtful(Apply(s, step), key)
  {
    if step.CancelEarly? || step.Receive? || step.Validate? {
      if step.c in s.calls {
        assert CallSound(s, step.c);
      }
    }
  }

  lemma DoubtfulTodoStays(s: State, step: Step, todo: set<Key>)
    requires Sound(s) && exists key | key in todo :: Doubtful(s, key)
    ensures exists key | key in todo :: Doubtful(Apply(s, step), key)
  {
    var key :| key in todo && Doubtful(s, key);
    DoubtStays(s, step, key);
  }

  /** The call a step is about; others keep their place. */
  predicate Moves(step: Step, c: nat) {
    !step.ProcessStarts? && !step.Crash? && step.c == c
  }

  lemma OthersKeepCall(s: State, step: Step, c: nat)
    requires c in s.calls && c in Apply(s, step).calls && !Moves(step, c)
    ensures Apply(s, step).calls[c] == s.calls[c]
    ensures s.calls[c].process in s.alive ==> s.calls[c].process in Apply(s, step).alive
  {
  }

  /** A step writes at most the custody file of the call it is about. */
  lemma OthersKeepFile(s: State, step: Step, key: Key)
    requires key in s.files
    requires step.ProcessStarts? || step.Crash? || step.c !in s.calls || s.calls[step.c].key != key
    ensures key in Apply(s, step).files && Apply(s, step).files[key] == s.files[key]
  {
  }

  /** Only a fetch adds to the fetched keys, and only the key of its call. */
  lemma FetchesGrow(s: State, step: Step)
    ensures var t := Apply(s, step);
            t.fetched == s.fetched || (step.Fetch? && step.c in s.calls && s.calls[step.c].phase == Holding
                                       && t.fetched == s.fetched + [s.calls[step.c].key] && t.files == s.files)
  {
  }

  lemma FilesGrow(s: State, step: Step)
    ensures forall key | key in s.files ::
            key in Apply(s, step).files && Apply(s, step).files[key].owner == s.files[key].owner
    ensures forall key | key in Apply(s, step).files && key !in s.files ::
              step.Reserve? && step.c in s.calls && Apply(s, step).files[key].owner == s.calls[step.c].process
  {
  }

  /** What another call's step leaves of a call's own custody. */
  lemma OthersStay(s: State, step: Step, c: nat)
    requires Sound(s) && c in s.calls && c in Apply(s, step).calls && !Moves(step, c)
    ensures CallSound(Apply(s, step), c)
  {
    var call := s.calls[c];
    assert CallSound(s, c);
    OthersKeepCall(s, step, c);
    FetchesGrow(s, step);
    if call.late && call.phase.Scanning? {
      DoubtfulTodoStays(s, step, call.phase.todo);
    }
    if Holds(call.phase) {
      OthersKeepHeld(s, step, c);
    }
  }

  lemma OthersKeepHeld(s: State, step: Step, c: nat)
    requires Sound(s) && c in s.calls && !Moves(step, c) && Holds(s.calls[c].phase)
    ensures var key := s.calls[c].key;
            key in Apply(s, step).files && Apply(s, step).files[key] == s.files[key]
    ensures s.calls[c].key !in s.fetched ==> s.calls[c].key !in Apply(s, step).fetched
  {
    assert CallSound(s, c);
    FetchesGrow(s, step);
    if step.ProcessStarts? || step.Crash? || step.c !in s.calls {
      OthersKeepFile(s, step, s.calls[c].key);
    } else if Holds(s.calls[step.c].phase) {
      OthersKeepFile(s, step, s.calls[c].key);
    } else {
      NonHoldersKeepFiles(s, step, s.calls[c].key);
    }
  }

  lemma NonHoldersKeepFiles(s: State, step: Step, key: Key)
    requires key in s.files && !step.ProcessStarts? && !step.Crash? && step.c in s.calls
             && !Holds(s.calls[step.c].phase)
    ensures key in Apply(s, step).files && Apply(s, step).files[key] == s.files[key]
    ensures Apply(s, step).fetched == s.fetched
  {
  }

  lemma ScanStays(s: State, step: Step, c: nat)
    requires Sound(s) && c in s.calls && c in Apply(s, step).calls && Moves(step, c) && !Holds(s.calls[c].phase)
    requires step.Arrive? || step.CheckUnknown? || step.List? || step.Read? || step.CheckHolds?
    ensures CallSound(Apply(s, step), c)
  {
    assert CallSound(s, c);
    var call := s.calls[c];
    if call.late && call.phase.Scanning? {
      var key :| key in call.phase.todo && Doubtful(s, key);
      DoubtStays(s, step, key);
      if step.Read? && step.key in call.phase.todo && step.key in s.files && step.key != key
         && Apply(s, step).calls[c].phase.Scanning? {
        assert key in Apply(s, step).calls[c].phase.todo;
      }
    }
    if step.List? && call.phase == Listing && Poisoned(s) {
      var key :| key in s.files && Doubtful(s, key);
      assert Doubtful(Apply(s, step), key);
    }
  }

  lemma CustodyStays(s: State, step: Step, c: nat)
    requires Sound(s) && c in s.calls && Moves(step, c)
    requires !(step.Arrive? || step.CheckUnknown? || step.List? || step.Read? || step.CheckHolds?)
    ensures CallSound(Apply(s, step), c)
  {
    assert CallSound(s, c);
    if s.calls[c].late && s.calls[c].phase.Scanning? {
      DoubtfulTodoStays(s, step, s.calls[c].phase.todo);
    }
  }

  lemma NewCallIsSound(s: State, step: Step, c: nat)
    requires Sound(s) && c !in s.calls && c in Apply(s, step).calls
    ensures CallSound(Apply(s, step), c)
  {
  }

  lemma CallsStay(s: State, step: Step)
    requires Sound(s)
    ensures forall c | c in Apply(s, step).calls :: CallSound(Apply(s, step), c)
  {
    forall c | c in Apply(s, step).calls
      ensures CallSound(Apply(s, step), c)
    {
      if c !in s.calls {
        NewCallIsSound(s, step, c);
      } else if !Moves(step, c) {
        OthersStay(s, step, c);
      } else if step.Arrive? || step.CheckUnknown? || step.List? || step.Read? || step.CheckHolds? {
        if Holds(s.calls[c].phase) {
          assert Apply(s, step) == s;
        } else {
          ScanStays(s, step, c);
        }
      } else {
        CustodyStays(s, step, c);
      }
    }
  }

  /** A call comes to hold custody only by creating its file. */
  lemma HolderHeldOrCreates(s: State, step: Step, c: nat)
    requires c in Apply(s, step).calls && Holds(Apply(s, step).calls[c].phase)
    ensures c in s.calls && Apply(s, step).calls[c].key == s.calls[c].key
    ensures Holds(s.calls[c].phase) || (step == Reserve(c) && s.calls[c].key !in s.files)
  {
  }

  lemma HoldersStayApart(s: State, step: Step)
    requires Sound(s)
    ensures var t := Apply(s, step);
            forall c, d | c in t.calls && d in t.calls && c != d && Holds(t.calls[c].phase)
              && Holds(t.calls[d].phase) ::
              t.calls[c].key != t.calls[d].key
  {
    var t := Apply(s, step);
    forall c, d | c in t.calls && d in t.calls && c != d && Holds(t.calls[c].phase) && Holds(t.calls[d].phase)
      ensures t.calls[c].key != t.calls[d].key
    {
      HolderHeldOrCreates(s, step, c);
      HolderHeldOrCreates(s, step, d);
      assert CallSound(s, c) && CallSound(s, d);
    }
  }

  lemma FilesStay(s: State, step: Step)
    requires Sound(s)
    ensures var t := Apply(s, step);
            && (forall i | 0 <= i < |t.fetched| :: t.fetched[i] in t.files)
            && (forall i, j | 0 <= i < j < |t.fetched| :: t.fetched[i] != t.fetched[j])
            && (forall key | key in t.files :: t.files[key].owner < s.unused)
  {
    FetchesGrow(s, step);
    FilesGrow(s, step);
    if step.Fetch? || step.Reserve? {
      if step.c in s.calls {
        assert CallSound(s, step.c);
      }
    }
  }

  lemma ProcessesStay(s: State, step: Step)
    requires Sound(s)
    ensures s.unused <= Apply(s, step).unused && forall p | p in Apply(s, step).alive :: p < Apply(s, step).unused
  {
  }

  lemma StepKeepsSound(s: State, step: Step)
    requires Sound(s)
    ensures Sound(Apply(s, step))
  {
    CallsStay(s, step);
    HoldersStayApart(s, step);
    FilesStay(s, step);
    ProcessesStay(s, step);
  }

  lemma {:induction false} TraceKeepsSound(s: State, steps: seq<Step>)
    requires Sound(s)
    ensures Sound(Trace(s, steps))
  {
    if steps != [] {
      TraceKeepsSound(s, steps[..|steps| - 1]);
      StepKeepsSound(Trace(s, steps[..|steps| - 1]), steps[|steps| - 1]);
    }
  }

  /** Over every interleaving of processes and crashes, at most one fetch is issued for each task and request. */
  lemma AtMostOneFetch(steps: seq<Step>, i: nat, j: nat)
    requires i < j < |Trace(INITIAL, steps).fetched|
    ensures Trace(INITIAL, steps).fetched[i] != Trace(INITIAL, steps).fetched[j]
  {
    TraceKeepsSound(INITIAL, steps);
  }

  // ----- Doubt holds back every later call -----

  predicate BeforeScan(s: State, c: nat) {
    c !in s.calls || s.calls[c].phase == Checking || s.calls[c].phase == Listing
  }

  predicate HeldBack(s: State, c: nat) {
    BeforeScan(s, c) || s.calls[c].phase == Failed || (s.calls[c].late && s.calls[c].phase.Scanning?)
  }

  lemma LateOnceListed(s: State, step: Step, c: nat)
    requires Poisoned(s) && BeforeScan(s, c) && !BeforeScan(Apply(s, step), c)
    ensures Apply(s, step).calls[c].phase == Failed || Apply(s, step).calls[c].late
  {
  }

  lemma LateStaysLate(s: State, step: Step, c: nat)
    requires c in s.calls && c in Apply(s, step).calls && !BeforeScan(s, c)
    ensures Apply(s, step).calls[c].late == s.calls[c].late && !BeforeScan(Apply(s, step), c)
    ensures s.calls[c].phase == Failed ==> Apply(s, step).calls[c].phase == Failed
  {
  }

  lemma HeldBackStays(s: State, step: Step, c: nat)
    requires Sound(s) && Poisoned(s) && HeldBack(s, c)
    ensures HeldBack(Apply(s, step), c) && Poisoned(Apply(s, step))
  {
    var t := Apply(s, step);
    var key :| key in s.files && Doubtful(s, key);
    DoubtStays(s, step, key);
    StepKeepsSound(s, step);
    if c in t.calls && !BeforeScan(t, c) {
      assert CallSound(t, c);
      if BeforeScan(s, c) {
        LateOnceListed(s, step, c);
      } else {
        LateStaysLate(s, step, c);
      }
    }
  }

  /** No call that starts its scan after a completion became unknown, or after a reserved request's owner
      died, ever holds custody or fetches, whatever happens in between. */
  lemma {:induction false} DoubtHoldsLaterCalls(s: State, steps: seq<Step>, c: nat)
    requires Sound(s) && Poisoned(s) && BeforeScan(s, c)
    ensures var t := Trace(s, steps);
            Sound(t) && Poisoned(t) && HeldBack(t, c)
    ensures var t := Trace(s, steps);
            c in t.calls ==> !Holds(t.calls[c].phase) && t.calls[c].phase != Clear && Apply(t, Fetch(c)) == t
  {
    if steps != [] {
      DoubtHoldsLaterCalls(s, steps[..|steps| - 1], c);
      HeldBackStays(Trace(s, steps[..|steps| - 1]), steps[|steps| - 1], c);
      StepKeepsSound(Trace(s, steps[..|steps| - 1]), steps[|steps| - 1]);
    }
  }

  /** A lost answer, and a crash of a process that holds a reservation, each make custody doubtful. */
  lemma DoubtArises(s: State, c: nat)
    requires Sound(s) && c in s.calls && (s.calls[c].phase == Waiting || s.calls[c].phase == Holding)
    ensures Poisoned(Apply(s, Crash(s.calls[c].process)))
    ensures s.calls[c].phase == Waiting ==> Poisoned(Apply(s, Receive(c, Lost)))
  {
    assert CallSound(s, c);
    var key := s.calls[c].key;
    assert Doubtful(Apply(s, Crash(s.calls[c].process)), key);
    if s.calls[c].phase == Waiting {
      assert Doubtful(Apply(s, Receive(c, Lost)), key);
    }
  }

  /** The scan is not a lock: a call that listed the directory before the doubt arose may still dispatch. */
  lemma EarlierScanMayDispatch(s: State, c: nat, d: nat)
    requires Sound(s) && c in s.calls && d in s.calls && c != d
    requires s.calls[c].phase == Clear && s.calls[c].key !in s.files && s.calls[d].phase == Waiting
    ensures var t := Apply(Apply(Apply(s, Receive(d, Lost)), Reserve(c)), Fetch(c));
            Poisoned(t) && t.fetched == s.fetched + [s.calls[c].key]
  {
    assert CallSound(s, d);
    var t := Apply(Apply(Apply(s, Receive(d, Lost)), Reserve(c)), Fetch(c));
    assert s.calls[d].key != s.calls[c].key && Doubtful(t, s.calls[d].key);
  }

  const ONE := Key(0, 0)
  const OTHER := Key(0, 1)

  /** Two calls of one process have scanned the empty directory; the second waits for its answer. */
  const TWO_SCANS: seq<Step> := [
    ProcessStarts(0), Arrive(0, ONE, 0, 0), CheckUnknown(0), List(0), CheckHolds(0),
    Arrive(1, OTHER, 0, 0), CheckUnknown(1), List(1), CheckHolds(1), Reserve(1), Fetch(1)]

  lemma Unroll(s: State, front: seq<Step>, step: Step)
    ensures Trace(s, front + [step]) == Apply(Trace(s, front), step)
  {
    assert (front + [step])[..|front|] == front;
  }

  lemma FirstScan()
    ensures Trace(INITIAL, TWO_SCANS[..5])
            == State({0}, 1, map[], {}, false, {}, map[0 := Call(ONE, 0, 0, Clear, false)], [])
  {
    var a: seq<Step> := [] + [ProcessStarts(0)];
    var b := a + [Arrive(0, ONE, 0, 0)];
    Unroll(INITIAL, [], ProcessStarts(0));
    Unroll(INITIAL, a, Arrive(0, ONE, 0, 0));
    Unroll(INITIAL, b, CheckUnknown(0));
    Unroll(INITIAL, b + [CheckUnknown(0)], List(0));
    assert Trace(INITIAL, b + [CheckUnknown(0)]).files.Keys == {};
    Unroll(INITIAL, b + [CheckUnknown(0)] + [List(0)], CheckHolds(0));
    assert TWO_SCANS[..5] == b + [CheckUnknown(0)] + [List(0)] + [CheckHolds(0)];
  }

  lemma SecondListing()
    ensures Trace(INITIAL, TWO_SCANS[..8]) == State({0}, 1, map[], {}, false, {},
              map[0 := Call(ONE, 0, 0, Clear, false), 1 := Call(OTHER, 0, 0, Scanning({}, false), false)], [])
  {
    FirstScan();
    var a := TWO_SCANS[..5] + [Arrive(1, OTHER, 0, 0)];
    Unroll(INITIAL, TWO_SCANS[..5], Arrive(1, OTHER, 0, 0));
    Unroll(INITIAL, a, CheckUnknown(1));
    Unroll(INITIAL, a + [CheckUnknown(1)], List(1));
    assert Trace(INITIAL, a + [CheckUnknown(1)]).files.Keys == {};
    assert TWO_SCANS[..8] == a + [CheckUnknown(1)] + [List(1)];
  }

  lemma SecondScan()
    ensures var t := Trace(INITIAL, TWO_SCANS);
            && t.fetched == [OTHER] && 0 in t.calls && 1 in t.calls && ONE !in t.files
            && t.calls[0] == Call(ONE, 0, 0, Clear, false) && t.calls[1].phase == Waiting && t.calls[1].key == OTHER
  {
    SecondListing();
    var b := TWO_SCANS[..8];
    Unroll(INITIAL, b, CheckHolds(1));
    Unroll(INITIAL, b + [CheckHolds(1)], Reserve(1));
    Unroll(INITIAL, b + [CheckHolds(1)] + [Reserve(1)], Fetch(1));
    assert TWO_SCANS == b + [CheckHolds(1)] + [Reserve(1)] + [Fetch(1)];
  }

  /** From the initial state: a call that scanned before an answer was lost still dispatches afterwards. */
  lemma DispatchAfterDoubt()
    ensures var t := Trace(INITIAL, TWO_SCANS + [Receive(1, Lost)] + [Reserve(0)] + [Fetch(0)]);
            Poisoned(Trace(INITIAL, TWO_SCANS + [Receive(1, Lost)])) && Poisoned(t) && t.fetched == [OTHER, ONE]
  {
    SecondScan();
    TraceKeepsSound(INITIAL, TWO_SCANS);
    var s := Trace(INITIAL, TWO_SCANS);
    Unroll(INITIAL, TWO_SCANS, Receive(1, Lost));
    Unroll(INITIAL, TWO_SCANS + [Receive(1, Lost)], Reserve(0));
    Unroll(INITIAL, TWO_SCANS + [Receive(1, Lost)] + [Reserve(0)], Fetch(0));
    DoubtArises(s, 1);
    EarlierScanMayDispatch(s, 0, 1);
  }
}
