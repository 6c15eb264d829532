/** Repair transitions: drafts, their sealing against native runtime evidence, and the strict parser.

    A digest is modelled by the value it digests: a patch digest is the patch payload, and a
    transition's digest is its body. */
module CandidateEvidence {
  import opened Basics

  datatype Identity = Identity(commit: string, tree: string)
  datatype Host = Codex | Claude
  datatype Operation = Architecture | Implementation | Repair | Review

  /** What the transaction expects of an invocation; a host is expected only where it was chosen. */
  datatype Expectation = Expectation(id: string, operation: Operation, tree: string, host: Option<Host>,
                                     patch: Option<string>)

  /** What the native runtime recorded. */
  datatype Native = Native(id: string, operation: Operation, tree: string, host: Host, patch: Option<string>)

  datatype Phase = PreAdmission | PostAdmission
  datatype Trigger = PatchAdmission | AdmissionValidation | Build | Verification | ReviewTrigger | FinalAdmission
  datatype Disposition = NotStarted | BuildFailed | BuildPassed

  datatype Draft = Draft(
    fromAttempt: int,
    toAttempt: int,
    phase: Phase,
    trigger: Trigger,
    disposition: Disposition,
    sourcePatch: string,
    replacementPatch: string,
    sourceCandidate: Identity,
    repairReset: Option<Identity>,
    reset: Option<Identity>,
    reasons: seq<string>,
    invocationId: string)

  datatype Body = Body(
    fromAttempt: int,
    toAttempt: int,
    phase: Phase,
    trigger: Trigger,
    disposition: Disposition,
    sourcePatch: string,
    replacementPatch: string,
    sourceCandidate: Identity,
    repairReset: Option<Identity>,
    reset: Identity,
    reasons: seq<string>,
    native: Native)

  datatype Transition = Transition(body: Body, digest: Body)

  datatype Status = Pass | Fail | Gated | Cancelled

  datatype Receipt = Receipt(
    status: Status,
    repairCount: int,
    patchDigests: seq<string>,
    evaluator: Identity,
    candidate: Identity,
    nativeEvidence: Option<seq<Native>>)

  datatype Error =
    | AttemptInvalid | PhaseInvalid | PatchUnchanged | RepairResetRequired | RepairResetMismatch | RepairResetUnexpected
    | ReasonsRequired | InvocationRequired
    | PendingMissing | PendingDuplicate | ReplacementMismatch
    | SequenceInvalid | ResetMissing | InvocationInvalid | CandidateMismatch | PatchBindingMismatch | InvocationUnbound
    | ReceiptMismatch | RoleMismatch | CountMismatch | TransitionMismatch | DigestMismatch | BindingsMismatch
    | Aborted | BudgetExhausted | GateFailed | NotIndependent | StaleIdentity | OperationFailed | TreeUnchanged
    | RuntimeFailed

  datatype Result<+T> = Success(value: T) | Failure(error: Error)

  function Select<T>(items: seq<T>, keep: T -> bool): seq<T> {
    if items == [] then []
    else
      var front, last := items[..|items| - 1], items[|items| - 1];
      if keep(last) then Select(front, keep) + [last] else Select(front, keep)
  }

  function Ids(invocations: seq<Native>): set<string> {
    set n | n in invocations :: n.id
  }

  predicate IsRepair(n: Native) {
    n.operation.Repair?
  }

  /** The repair invocation of that id, as a map keyed by id would return it: the last one listed. */
  function FindRepair(native: seq<Native>, id: string): Option<Native> {
    if native == [] then None
    else
      var last := native[|native| - 1];
      if IsRepair(last) && last.id == id then Some(last) else FindRepair(native[..|native| - 1], id)
  }

  // ----- Drafts -----

  const MAX_ATTEMPT := 10

  function DispositionFor(trigger: Trigger): Disposition {
    match trigger
    case PatchAdmission => NotStarted
    case AdmissionValidation => NotStarted
    case Build => BuildFailed
    case _ => BuildPassed
  }

  function PhaseFor(trigger: Trigger): Phase {
    if trigger.PatchAdmission? then PreAdmission else PostAdmission
  }

  function CreateDraft(fromAttempt: int, phase: Phase, trigger: Trigger, sourcePatch: string, replacementPatch: string,
                       sourceCandidate: Identity, repairReset: Option<Identity>, reasons: seq<string>,
                         invocationId: string)
    : Result<Draft>
  {
    if !(0 <= fromAttempt && fromAttempt + 1 <= MAX_ATTEMPT) then Failure(AttemptInvalid)
    else if phase != PhaseFor(trigger) then Failure(PhaseInvalid)
    else if sourcePatch == replacementPatch then Failure(PatchUnchanged)
    else if trigger.PatchAdmission? && repairReset.None? then Failure(RepairResetRequired)
    else if trigger.PatchAdmission? && repairReset.value != sourceCandidate then Failure(RepairResetMismatch)
    else if !trigger.PatchAdmission? && repairReset.Some? then Failure(RepairResetUnexpected)
    else if reasons == [] then Failure(ReasonsRequired)
    else if invocationId == "" then Failure(InvocationRequired)
    else Success(Draft(fromAttempt, fromAttempt + 1, phase, trigger, DispositionFor(trigger), sourcePatch,
                       replacementPatch,
                       sourceCandidate, repairReset, None, reasons, invocationId))
  }

  predicate Pending(draft: Draft, attempt: int) {
    draft.toAttempt == attempt && draft.reset.None?
  }

  /** The pending drafts of an attempt, by index. */
  function PendingAt(drafts: seq<Draft>, attempt: int): seq<nat> {
    if drafts == [] then []
    else
      var last := |drafts| - 1;
      PendingAt(drafts[..last], attempt) + if Pending(drafts[last], attempt) then [last] else []
  }

  lemma {:induction false} PendingAtIndices(drafts: seq<Draft>, attempt: int)
    ensures forall k | 0 <= k < |PendingAt(drafts, attempt)| ::
              PendingAt(drafts, attempt)[k] < |drafts| && Pending(drafts[PendingAt(drafts, attempt)[k]], attempt)
  {
    if drafts != [] {
      PendingAtIndices(drafts[..|drafts| - 1], attempt);
    }
  }

  function CompleteReset(drafts: seq<Draft>, attempt: int, reset: Identity, patch: string): Result<seq<Draft>> {
    var matches := PendingAt(drafts, attempt);
    PendingAtIndices(drafts, attempt);
    if matches == [] then
      if attempt == 0 && drafts == [] then Success(drafts) else Failure(PendingMissing)
    else if |matches| != 1 then Failure(PendingDuplicate)
    else if drafts[matches[0]].replacementPatch != patch then Failure(ReplacementMismatch)
    else Success(drafts[matches[0] := drafts[matches[0]].(reset := Some(reset))])
  }

  // ----- Sealing -----

  function BodyOf(draft: Draft, native: Native): Body
    requires draft.reset.Some?
  {
    Body(draft.fromAttempt, draft.toAttempt, draft.phase, draft.trigger, draft.disposition, draft.sourcePatch,
         draft.replacementPatch, draft.sourceCandidate, draft.repairReset, draft.reset.value, draft.reasons, native)
  }

  /** Seal one draft given the invocation ids already used. */
  function SealOne(drafts: seq<Draft>, index: nat, native: seq<Native>, used: set<string>): Result<Transition>
    requires index < |drafts|
  {
    var draft := drafts[index];
    var invocation := FindRepair(native, draft.invocationId);
    if draft.fromAttempt != index || draft.toAttempt != index + 1 then Failure(SequenceInvalid)
    else if draft.reset.None? then Failure(ResetMissing)
    else if invocation.None? || invocation.value.id in used then Failure(InvocationInvalid)
    else if invocation.value.tree != draft.sourceCandidate.tree then Failure(CandidateMismatch)
    else if invocation.value.patch != Some(draft.replacementPatch) then Failure(PatchBindingMismatch)
    else Success(Transition(BodyOf(draft, invocation.value), BodyOf(draft, invocation.value)))
  }

  function UsedBy(transitions: seq<Transition>): set<string> {
    set t | t in transitions :: t.body.native.id
  }

  function SealFirst(drafts: seq<Draft>, native: seq<Native>, count: nat): Result<seq<Transition>>
    requires count <= |drafts|
  {
    if count == 0 then Success([])
    else
      var front := SealFirst(drafts, native, count - 1);
      if front.Failure? then front
      else
        var next := SealOne(drafts, count - 1, native, UsedBy(front.value));
        if next.Failure? then Failure(next.error) else Success(front.value + [next.value])
  }

  function Seal(drafts: seq<Draft>, native: seq<Native>): Result<seq<Transition>> {
    var sealed := SealFirst(drafts, native, |drafts|);
    if sealed.Failure? then sealed
    else if |UsedBy(sealed.value)| != |Ids(Select(native, IsRepair))| then Failure(InvocationUnbound)
    else sealed
  }

  lemma {:induction false} SealFailureIsFinal(drafts: seq<Draft>, native: seq<Native>, count: nat)
    requires count <= |drafts| && SealFirst(drafts, native, count).Failure?
    ensures SealFirst(drafts, native, |drafts|) == SealFirst(drafts, native, count)
    decreases |drafts| - count
  {
    if count < |drafts| {
      SealFailureIsFinal(drafts, native, count + 1);
    }
  }

  method SealCandidateRepairTransitions(drafts: seq<Draft>, native: seq<Native>)
    returns (sealed: Result<seq<Transition>>)
    ensures sealed == Seal(drafts, native)
  {
    var used: set<string>, transitions: seq<Transition> := {}, [];
    for i := 0 to |drafts|
      invariant SealFirst(drafts, native, i) == Success(transitions) && used == UsedBy(transitions)
    {
      var next := SealOne(drafts, i, native, used);
      if next.Failure? {
        SealFailureIsFinal(drafts, native, i + 1);
        return Failure(next.error);
      }
      transitions := transitions + [next.value];
      used := used + {next.value.body.native.id};
    }
    if |used| != |Ids(Select(native, IsRepair))| {
      return Failure(InvocationUnbound);
    }
    return Success(transitions);
  }

  // ----- The strict parser -----

  predicate DistinctIds(native: seq<Native>) {
    forall i, j | 0 <= i < j < |native| :: native[i].id != native[j].id
  }

  /** `assertNativeBindings` on the receipt and the invocations in their listed order. */
  predicate RolesBound(receipt: Receipt, native: seq<Native>) {
    var implementation := Select(native, (n: Native) => n.operation.Implementation?);
    var repairs := Select(native, IsRepair);
    var architectures := Select(native, (n: Native) => n.operation.Architecture?);
    var finalReviews := Select(native, (n: Native) => n.operation.Review? && n.tree == receipt.candidate.tree);
    && |implementation| == 1
    && implementation[0].tree == receipt.evaluator.tree
    && |receipt.patchDigests| > 0 && implementation[0].patch == Some(receipt.patchDigests[0])
    && |repairs| == receipt.repairCount
    && (forall k | 0 <= k < |architectures| :: architectures[k].tree == receipt.evaluator.tree)
    && (exists k | 0 <= k < |architectures| :: architectures[k].host == Codex)
    && (exists k | 0 <= k < |architectures| :: architectures[k].host == Claude)
    && |finalReviews| == 2
    && finalReviews[0].host != finalReviews[1].host
    && |native| >= 2 && native[|native| - 2] == finalReviews[0] && native[|native| - 1] == finalReviews[1]
  }

  /** Every condition the parser puts on transition `index`. */
  predicate TransitionBound(t: Transition, index: nat, receipt: Receipt, native: seq<Native>, used: set<string>) {
    var b := t.body;
    && b.fromAttempt == index && b.toAttempt == index + 1
    && b.phase == PhaseFor(b.trigger) && b.disposition == DispositionFor(b.trigger)
    && index + 1 < |receipt.patchDigests|
    && b.sourcePatch == receipt.patchDigests[index] && b.replacementPatch == receipt.patchDigests[index + 1]
    && b.reset == receipt.evaluator
    && FindRepair(native, b.native.id) == Some(b.native)
    && b.native.id !in used
    && b.native.tree == b.sourceCandidate.tree
    && b.native.patch == Some(b.replacementPatch)
    && b.sourcePatch != b.replacementPatch
    && (if b.trigger.PatchAdmission? then b.sourceCandidate == receipt.evaluator
        else b.sourceCandidate.tree != receipt.evaluator.tree)
    && (if b.trigger.PatchAdmission? then b.repairReset == Some(b.sourceCandidate) else b.repairReset.None?)
  }

  function ParseFirst(input: seq<Transition>, receipt: Receipt, native: seq<Native>,
                      count: nat): Result<seq<Transition>>
    requires count <= |input|
  {
    if count == 0 then Success([])
    else
      var front := ParseFirst(input, receipt, native, count - 1);
      if front.Failure? then front
      else
        var t := input[count - 1];
        if t.body.reasons == [] || !TransitionBound(t, count - 1, receipt, native, UsedBy(front.value))
        then Failure(TransitionMismatch)
        else if t.digest != t.body then Failure(DigestMismatch)
        else Success(front.value + [Transition(t.body, t.body)])
  }

  function ParseRepairTransitions(input: seq<Transition>, receipt: Receipt,
                                  native: seq<Native>): Result<seq<Transition>> {
    if |input| != receipt.repairCount then Failure(CountMismatch)
    else
      var parsed := ParseFirst(input, receipt, native, |input|);
      var repairs := Ids(Select(native, IsRepair));
      if parsed.Failure? then parsed
      else if |repairs| != |parsed.value| || |UsedBy(parsed.value)| != |repairs| || !(repairs <= UsedBy(parsed.value))
      then Failure(InvocationUnbound)
      else parsed
  }

  lemma {:induction false} ParseFailureIsFinal(input: seq<Transition>, receipt: Receipt, native: seq<Native>,
                                               count: nat)
    requires count <= |input| && ParseFirst(input, receipt, native, count).Failure?
    ensures ParseFirst(input, receipt, native, |input|) == ParseFirst(input, receipt, native, count)
    decreases |input| - count
  {
    if count < |input| {
      ParseFailureIsFinal(input, receipt, native, count + 1);
    }
  }

  method ParseTransitions(input: seq<Transition>, receipt: Receipt, native: seq<Native>)
    returns (parsed: Result<seq<Transition>>)
    ensures parsed == ParseRepairTransitions(input, receipt, native)
  {
    if |input| != receipt.repairCount {
      return Failure(CountMismatch);
    }
    var used: set<string>, transitions: seq<Transition> := {}, [];
    for i := 0 to |input|
      invariant ParseFirst(input, receipt, native, i) == Success(transitions) && used == UsedBy(transitions)
    {
      var t := input[i];
      if t.body.reasons == [] || !TransitionBound(t, i, receipt, native, used) {
        ParseFailureIsFinal(input, receipt, native, i + 1);
        return Failure(TransitionMismatch);
      }
      if t.digest != t.body {
        ParseFailureIsFinal(input, receipt, native, i + 1);
        return Failure(DigestMismatch);
      }
      used := used + {t.body.native.id};
      transitions := transitions + [Transition(t.body, t.body)];
    }
    var repairs := Ids(Select(native, IsRepair));
    if |repairs| != |transitions| || |used| != |repairs| || !(repairs <= used) {
      return Failure(InvocationUnbound);
    }
    return Success(transitions);
  }

  /** The sealed record, with the receipt it is bound to. */
  datatype Evidence = Evidence(
    receipt: Receipt,
    bindings: seq<Native>,
    native: seq<Native>,
    transitions: seq<Transition>,
    transitionsDigest: seq<Transition>)

  function ParseEvidence(input: Evidence, receipt: Receipt): Result<Evidence> {
    if !receipt.status.Pass? || receipt.nativeEvidence.None? || input.receipt != receipt then Failure(ReceiptMismatch)
    else if input.bindings == [] || !DistinctIds(input.bindings) || input.bindings != input.native
            || receipt.nativeEvidence != Some(input.native) then Failure(BindingsMismatch)
    else if !RolesBound(receipt, input.native) then Failure(RoleMismatch)
    else
      var transitions := ParseRepairTransitions(input.transitions, receipt, input.native);
      if transitions.Failure? then Failure(transitions.error)
      else if input.transitionsDigest != transitions.value then Failure(DigestMismatch)
      else Success(Evidence(receipt, input.bindings, input.native, transitions.value, transitions.value))
  }

  function CreateEvidence(receipt: Receipt, native: seq<Native>, transitions: seq<Transition>): Result<Evidence> {
    ParseEvidence(Evidence(receipt, native, native, transitions, transitions), receipt)
  }

  // ----- What acceptance means -----

  /** The parser returns what it was given, unchanged. */
  lemma {:induction false} ParseReturnsInput(input: seq<Transition>, receipt: Receipt, native: seq<Native>, count: nat)
    requires count <= |input| && ParseFirst(input, receipt, native, count).Success?
    ensures ParseFirst(input, receipt, native, count).value == input[..count]
    ensures forall k | 0 <= k < count ::
              input[k].body.reasons != [] && TransitionBound(input[k], k, receipt, native, UsedBy(input[..k]))
  {
    if count > 0 {
      ParseReturnsInput(input, receipt, native, count - 1);
      assert input[..count] == input[..count - 1] + [input[count - 1]];
    }
  }

  lemma AcceptedEvidenceIsUnchanged(input: Evidence, receipt: Receipt)
    requires ParseEvidence(input, receipt).Success?
    ensures ParseEvidence(input, receipt).value == input
  {
    ParseReturnsInput(input.transitions, receipt, input.native, |input.transitions|);
    assert input.transitions[..|input.transitions|] == input.transitions;
  }

  /** Transition `k` leads from patch `k` to patch `k + 1`. */
  ghost predicate Links(t: Transition, k: nat, patches: seq<string>) {
    && k + 1 < |patches|
    && t.body.fromAttempt == k && t.body.toAttempt == k + 1
    && t.body.sourcePatch == patches[k] && t.body.replacementPatch == patches[k + 1]
  }

  /** A gap-free chain through the patch history, from the first patch to patch `|transitions|`. */
  ghost predicate Chain(transitions: seq<Transition>, patches: seq<string>) {
    |transitions| < |patches| && forall k | 0 <= k < |transitions| :: Links(transitions[k], k, patches)
  }

  /** Each repair invocation occurs in exactly one transition, and nothing else does. */
  ghost predicate UsesEachRepairOnce(transitions: seq<Transition>, native: seq<Native>) {
    && (forall i, j | 0 <= i < j < |transitions| :: transitions[i].body.native.id != transitions[j].body.native.id)
    && (forall n | n in native && IsRepair(n) :: exists k | 0 <= k < |transitions| :: transitions[k].body.native == n)
    && (forall k | 0 <= k < |transitions| ::
        transitions[k].body.native in native && IsRepair(transitions[k].body.native))
  }

  lemma {:induction false} FindRepairIsListed(native: seq<Native>, id: string)
    ensures FindRepair(native, id).Some? ==>
            FindRepair(native, id).value in native && IsRepair(FindRepair(native, id).value)
              && FindRepair(native, id).value.id == id
  {
    if native != [] {
      FindRepairIsListed(native[..|native| - 1], id);
    }
  }

  lemma {:induction false} SelectKeeps<T>(items: seq<T>, keep: T -> bool, item: T)
    ensures item in Select(items, keep) <==> item in items && keep(item)
  {
    if items != [] {
      var front := items[..|items| - 1];
      SelectKeeps(front, keep, item);
      assert items == front + [items[|items| - 1]];
    }
  }

  /** What every accepted transition satisfied, against the transitions before it. */
  lemma AcceptedTransitionsBound(input: Evidence, receipt: Receipt)
    requires ParseEvidence(input, receipt).Success?
    ensures |input.transitions| == receipt.repairCount
    ensures forall k | 0 <= k < |input.transitions| ::
              TransitionBound(input.transitions[k], k, receipt, input.native, UsedBy(input.transitions[..k]))
  {
    ParseReturnsInput(input.transitions, receipt, input.native, |input.transitions|);
  }

  /** Every accepted list is a gap-free chain through the receipt's patch history. */
  lemma AcceptedTransitionsChain(input: Evidence, receipt: Receipt)
    requires ParseEvidence(input, receipt).Success?
    ensures |input.transitions| == receipt.repairCount
    ensures Chain(input.transitions, receipt.patchDigests)
  {
    var ts, patches := input.transitions, receipt.patchDigests;
    AcceptedTransitionsBound(input, receipt);
    forall k | 0 <= k < |ts|
      ensures Links(ts[k], k, patches)
    {
      assert TransitionBound(ts[k], k, receipt, input.native, UsedBy(ts[..k]));
    }
    if ts != [] {
      assert Links(ts[|ts| - 1], |ts| - 1, patches);
    }
  }

  lemma NeverReused(ts: seq<Transition>, i: nat, j: nat)
    requires i < j < |ts| && ts[j].body.native.id !in UsedBy(ts[..j])
    ensures ts[i].body.native.id != ts[j].body.native.id
  {
    assert ts[i] in ts[..j];
  }

  /** Every accepted list uses each repair invocation of the native evidence exactly once. */
  lemma AcceptedTransitionsUseEachRepairOnce(input: Evidence, receipt: Receipt)
    requires ParseEvidence(input, receipt).Success?
    ensures UsesEachRepairOnce(input.transitions, input.native)
  {
    var ts, native := input.transitions, input.native;
    AcceptedTransitionsBound(input, receipt);
    forall k | 0 <= k < |ts|
      ensures ts[k].body.native in native && IsRepair(ts[k].body.native)
    {
      assert TransitionBound(ts[k], k, receipt, native, UsedBy(ts[..k]));
      FindRepairIsListed(native, ts[k].body.native.id);
    }
    forall i, j | 0 <= i < j < |ts|
      ensures ts[i].body.native.id != ts[j].body.native.id
    {
      assert TransitionBound(ts[j], j, receipt, native, UsedBy(ts[..j]));
      NeverReused(ts, i, j);
    }
    forall n | n in native && IsRepair(n)
      ensures exists k | 0 <= k < |ts| :: ts[k].body.native == n
    {
      RepairIsUsed(input, receipt, n);
    }
  }

  lemma RepairIsUsed(input: Evidence, receipt: Receipt, n: Native)
    requires ParseEvidence(input, receipt).Success? && n in input.native && IsRepair(n)
    ensures exists k | 0 <= k < |input.transitions| :: input.transitions[k].body.native == n
  {
    var ts, native := input.transitions, input.native;
    ParseReturnsInput(ts, receipt, native, |ts|);
    assert ts[..|ts|] == ts;
    SelectKeeps(native, IsRepair, n);
    assert n.id in UsedBy(ts);
    var t :| t in ts && t.body.native.id == n.id;
    var k :| 0 <= k < |ts| && ts[k] == t;
    FindRepairIsListed(native, t.body.native.id);
    IdsDistinguish(native, t.body.native, n);
  }

  lemma IdsDistinguish(native: seq<Native>, a: Native, b: Native)
    requires DistinctIds(native) && a in native && b in native && a.id == b.id
    ensures a == b
  {
  }
}
