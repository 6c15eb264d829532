/** Producer and parser agree: the transitions a passing transaction seals are exactly those the strict
    parser accepts, and evidence creation fails only when the final tree had been reviewed before. */
module CandidateAgreement {
  import opened Basics
  import opened CandidateEvidence
  import opened CandidateTransaction
  import opened CandidateLaws

  /** The runtime lists its invocations in the order the transaction expected them. */
  ghost predicate InOrder(native: seq<Native>, expected: seq<Expectation>) {
    |native| == |expected| && forall i | 0 <= i < |native| :: Matches(native[i], expected[i])
  }

  lemma {:induction false} SelectInOrder(native: seq<Native>, expected: seq<Expectation>, keep: Native -> bool,
                                         wanted: Expectation -> bool)
    requires InOrder(native, expected)
    requires forall n, e | Matches(n, e) :: keep(n) == wanted(e)
    ensures InOrder(Select(native, keep), Select(expected, wanted))
  {
    if native != [] {
      SelectInOrder(native[..|native| - 1], expected[..|expected| - 1], keep, wanted);
      assert Matches(native[|native| - 1], expected[|expected| - 1]);
    }
  }

  lemma {:induction false} SelectDistinct(native: seq<Native>, keep: Native -> bool)
    requires DistinctIds(native)
    ensures DistinctIds(Select(native, keep))
  {
    if native != [] {
      var front, last := native[..|native| - 1], native[|native| - 1];
      SelectDistinct(front, keep);
      forall k | 0 <= k < |Select(front, keep)|
        ensures Select(front, keep)[k].id != last.id
      {
        SelectKeeps(front, keep, Select(front, keep)[k]);
      }
    }
  }

  lemma {:induction false} FindRepairUnique(native: seq<Native>, n: Native)
    requires DistinctIds(native) && n in native && IsRepair(n)
    ensures FindRepair(native, n.id) == Some(n)
  {
    FindRepairIsListed(native, n.id);
    if FindRepair(native, n.id).Some? {
      IdsDistinguish(native, FindRepair(native, n.id).value, n);
    } else {
      FindRepairTotal(native, n);
    }
  }

  lemma {:induction false} FindRepairTotal(native: seq<Native>, n: Native)
    requires n in native && IsRepair(n)
    ensures FindRepair(native, n.id).Some?
  {
    var front, last := native[..|native| - 1], native[|native| - 1];
    if !(IsRepair(last) && last.id == n.id) {
      assert native == front + [last];
      FindRepairTotal(front, n);
    }
  }

  lemma {:induction false} DistinctCount(native: seq<Native>)
    requires DistinctIds(native)
    ensures |Ids(native)| == |native|
  {
    if native != [] {
      var front, last := native[..|native| - 1], native[|native| - 1];
      DistinctCount(front);
      assert native == front + [last];
      assert Ids(native) == Ids(front) + {last.id} && last.id !in Ids(front);
    }
  }

  // ----- Sealing -----

  /** The k-th repair invocation of the runtime is the one draft `k` named. */
  ghost predicate RepairsListed(drafts: seq<Draft>, native: seq<Native>) {
    InOrder(Select(native, IsRepair), Repairs(drafts))
  }

  lemma PassingRepairsListed(ctx: Context, st: State, patch: Patch, native: seq<Native>)
    requires Passing(ctx, st, patch) && InOrder(native, st.invocations)
    ensures RepairsListed(st.drafts, native)
  {
    SelectInOrder(native, st.invocations, IsRepair, IsRepairing);
  }

  /** Transition `k` as it must come out: draft `k` with its invocation. */
  function SealedAt(drafts: seq<Draft>, native: seq<Native>, k: nat): Transition
    requires k < |drafts| && k < |Select(native, IsRepair)| && drafts[k].reset.Some?
  {
    Transition(BodyOf(drafts[k], Select(native, IsRepair)[k]), BodyOf(drafts[k], Select(native, IsRepair)[k]))
  }

  lemma RepairOf(drafts: seq<Draft>, native: seq<Native>, k: nat)
    requires DistinctIds(native) && RepairsListed(drafts, native) && k < |drafts|
    ensures |Select(native, IsRepair)| == |drafts|
    ensures var n := Select(native, IsRepair)[k];
            && FindRepair(native, n.id) == Some(n) && n.id == drafts[k].invocationId
            && n.tree == drafts[k].sourceCandidate.tree && n.patch == Some(drafts[k].replacementPatch)
  {
    var n := Select(native, IsRepair)[k];
    SelectKeeps(native, IsRepair, n);
    FindRepairUnique(native, n);
    assert Matches(n, Repairs(drafts)[k]);
  }

  ghost predicate Sealable(ctx: Context, drafts: seq<Draft>) {
    && ResetsFilled(ctx, drafts, |drafts|)
    && forall k | 0 <= k < |drafts| :: drafts[k].fromAttempt == k && drafts[k].toAttempt == k + 1
  }

  lemma {:induction false} UsedIds(ts: seq<Transition>, repairs: seq<Native>)
    requires |ts| <= |repairs| && forall k | 0 <= k < |ts| :: ts[k].body.native == repairs[k]
    ensures UsedBy(ts) == Ids(repairs[..|ts|])
  {
    if ts != [] {
      var front, last := ts[..|ts| - 1], ts[|ts| - 1];
      UsedIds(front, repairs);
      assert ts == front + [last] && repairs[..|ts|] == repairs[..|front|] + [last.body.native];
      assert UsedBy(ts) == UsedBy(front) + {last.body.native.id};
      assert Ids(repairs[..|ts|]) == Ids(repairs[..|front|]) + {last.body.native.id};
    }
  }

  lemma NextIsUnused(repairs: seq<Native>, k: nat)
    requires DistinctIds(repairs) && k < |repairs|
    ensures repairs[k].id !in Ids(repairs[..k])
  {
  }

  lemma {:induction false} SealFirstWorks(ctx: Context, drafts: seq<Draft>, native: seq<Native>, count: nat)
    requires count <= |drafts| && DistinctIds(native) && RepairsListed(drafts, native) && Sealable(ctx, drafts)
    ensures |Select(native, IsRepair)| == |drafts|
    ensures var sealed := SealFirst(drafts, native, count);
            sealed.Success? && |sealed.value| == count
            && forall k | 0 <= k < count :: sealed.value[k] == SealedAt(drafts, native, k)
  {
    if count > 0 {
      var index := count - 1;
      SealFirstWorks(ctx, drafts, native, index);
      SealOneWorks(ctx, drafts, native, index, SealFirst(drafts, native, index).value);
    }
  }

  lemma SealOneWorks(ctx: Context, drafts: seq<Draft>, native: seq<Native>, index: nat, front: seq<Transition>)
    requires index < |drafts| && DistinctIds(native) && RepairsListed(drafts, native) && Sealable(ctx, drafts)
    requires |Select(native, IsRepair)| == |drafts| && |front| == index
    requires forall k | 0 <= k < index :: front[k] == SealedAt(drafts, native, k)
    ensures SealOne(drafts, index, native, UsedBy(front)) == Success(SealedAt(drafts, native, index))
  {
    var repairs := Select(native, IsRepair);
    RepairOf(drafts, native, index);
    SelectDistinct(native, IsRepair);
    UsedIds(front, repairs);
    NextIsUnused(repairs, index);
  }

  function SealedAll(drafts: seq<Draft>, native: seq<Native>): seq<Transition>
    requires |Select(native, IsRepair)| == |drafts| && forall k | 0 <= k < |drafts| :: drafts[k].reset.Some?
  {
    seq(|drafts|, k requires 0 <= k < |drafts| => SealedAt(drafts, native, k))
  }

  lemma SealWorks(ctx: Context, drafts: seq<Draft>, native: seq<Native>)
    requires DistinctIds(native) && RepairsListed(drafts, native) && Sealable(ctx, drafts)
    ensures |Select(native, IsRepair)| == |drafts|
    ensures Seal(drafts, native) == Success(SealedAll(drafts, native))
    ensures UsedBy(SealedAll(drafts, native)) == Ids(Select(native, IsRepair))
    ensures |Ids(Select(native, IsRepair))| == |drafts|
  {
    SealFirstWorks(ctx, drafts, native, |drafts|);
    var ts, repairs := SealedAll(drafts, native), Select(native, IsRepair);
    assert SealFirst(drafts, native, |drafts|).value == ts;
    UsedIds(ts, repairs);
    assert repairs[..|ts|] == repairs;
    SelectDistinct(native, IsRepair);
    DistinctCount(repairs);
  }

  // ----- Parsing -----

  lemma TransitionParses(ctx: Context, st: State, patch: Patch, native: seq<Native>, receipt: Receipt, k: nat)
    requires Passing(ctx, st, patch) && InOrder(native, st.invocations) && DistinctIds(native)
    requires receipt == ReceiptOf(ctx, st, Pass, Some(native)) && k < |st.drafts|
    requires |Select(native, IsRepair)| == |st.drafts|
    ensures var ts := SealedAll(st.drafts, native);
            ts[k].body.reasons != [] && TransitionBound(ts[k], k, receipt, native, UsedBy(ts[..k]))
  {
    PassingRepairsListed(ctx, st, patch, native);
    RepairOf(st.drafts, native, k);
    SelectDistinct(native, IsRepair);
    var ts, repairs := SealedAll(st.drafts, native), Select(native, IsRepair);
    UsedIds(ts[..k], repairs);
    NextIsUnused(repairs, k);
    var d := st.drafts[k];
    assert DraftOk(ctx, d, k, PatchAt(st, patch, k), PatchAt(st, patch, k + 1));
    assert d.reset == Some(ctx.evaluator);
  }

  lemma {:induction false} ParseFirstWorks(ctx: Context, st: State, patch: Patch, native: seq<Native>,
                                           receipt: Receipt, count: nat)
    requires Passing(ctx, st, patch) && InOrder(native, st.invocations) && DistinctIds(native)
    requires receipt == ReceiptOf(ctx, st, Pass, Some(native)) && count <= |st.drafts|
    requires |Select(native, IsRepair)| == |st.drafts|
    ensures ParseFirst(SealedAll(st.drafts, native), receipt, native, count)
         == Success(SealedAll(st.drafts, native)[..count])
  {
    if count > 0 {
      var ts := SealedAll(st.drafts, native);
      ParseFirstWorks(ctx, st, patch, native, receipt, count - 1);
      TransitionParses(ctx, st, patch, native, receipt, count - 1);
      TakeNext(ts, count);
      assert ts[count - 1].digest == ts[count - 1].body;
    }
  }

  lemma TakeNext<T>(items: seq<T>, count: nat)
    requires 0 < count <= |items|
    ensures items[..count] == items[..count - 1] + [items[count - 1]]
  {
  }

  /** The strict transition parser accepts what was sealed, and returns it unchanged. */
  lemma SealedTransitionsParse(ctx: Context, st: State, patch: Patch, native: seq<Native>)
    requires Passing(ctx, st, patch) && InOrder(native, st.invocations) && DistinctIds(native)
    ensures Seal(st.drafts, native).Success?
    ensures var ts := Seal(st.drafts, native).value;
            ParseRepairTransitions(ts, ReceiptOf(ctx, st, Pass, Some(native)), native) == Success(ts)
  {
    PassingRepairsListed(ctx, st, patch, native);
    PassingSealable(ctx, st, patch);
    SealWorks(ctx, st.drafts, native);
    var receipt := ReceiptOf(ctx, st, Pass, Some(native));
    ParseFirstWorks(ctx, st, patch, native, receipt, |st.drafts|);
    var ts := SealedAll(st.drafts, native);
    assert ts[..|ts|] == ts;
  }

  lemma PassingSealable(ctx: Context, st: State, patch: Patch)
    requires Passing(ctx, st, patch)
    ensures Sealable(ctx, st.drafts)
  {
    forall k | 0 <= k < |st.drafts|
      ensures st.drafts[k].fromAttempt == k && st.drafts[k].toAttempt == k + 1
    {
      assert DraftOk(ctx, st.drafts[k], k, PatchAt(st, patch, k), PatchAt(st, patch, k + 1));
    }
  }

  // ----- Roles -----

  /** No invocation before the last two is a review of the final tree. */
  ghost predicate FinalTreeIsFresh(st: State) {
    st.admission.Some? &&
    forall i | 0 <= i < |st.invocations| - 2 ::
      !(st.invocations[i].operation.Review? && st.invocations[i].tree == st.admission.value.candidate.tree)
  }

  lemma {:induction false} SelectPrefix<T>(items: seq<T>, count: nat, keep: T -> bool)
    requires count <= |items|
    ensures |Select(items[..count], keep)| <= |Select(items, keep)|
    ensures Select(items, keep)[..|Select(items[..count], keep)|] == Select(items[..count], keep)
    decreases |items|
  {
    if count == |items| {
      assert items[..count] == items;
    } else {
      var front := items[..|items| - 1];
      assert front[..count] == items[..count];
      SelectPrefix(front, count, keep);
    }
  }

  /** The two last invocations are kept, so exactly two are kept when and only when none before them is. */
  lemma LastTwoSelected<T>(items: seq<T>, keep: T -> bool)
    requires |items| >= 2 && keep(items[|items| - 2]) && keep(items[|items| - 1])
    ensures |Select(items, keep)| == 2 <==> forall i | 0 <= i < |items| - 2 :: !keep(items[i])
    ensures |Select(items, keep)| == 2 ==> Select(items, keep) == [items[|items| - 2], items[|items| - 1]]
  {
    var n := |items|;
    var early := items[..n - 2];
    SelectSnoc(early, items[n - 2], keep);
    SelectSnoc(early + [items[n - 2]], items[n - 1], keep);
    assert items == early + [items[n - 2]] + [items[n - 1]];
    if forall i | 0 <= i < n - 2 :: !keep(items[i]) {
      SelectNone(early, keep);
    } else {
      var i :| 0 <= i < n - 2 && keep(items[i]);
      assert items[i] == early[i];
      SelectKeeps(early, keep, early[i]);
    }
  }

  /** The parser's role check holds of a passing transaction exactly when its final tree is fresh. */
  lemma RolesBoundExactly(ctx: Context, st: State, patch: Patch, native: seq<Native>)
    requires Passing(ctx, st, patch) && InOrder(native, st.invocations) && DualHost(ctx.architectures)
    ensures RolesBound(ReceiptOf(ctx, st, Pass, Some(native)), native) <==> FinalTreeIsFresh(st)
  {
    var receipt := ReceiptOf(ctx, st, Pass, Some(native));
    var tree := st.admission.value.candidate.tree;
    assert receipt.candidate.tree == tree;
    SelectInOrder(native, st.invocations, IsRepair, IsRepairing);
    SelectInOrder(native, st.invocations, (n: Native) => n.operation.Implementation?, IsImplementing);
    SelectInOrder(native, st.invocations, (n: Native) => n.operation.Architecture?, IsArchitecture);
    ImplementationRole(ctx, st, patch, native);
    ArchitectureRoles(ctx, st, native);
    FinalReviewRoles(ctx, st, patch, native);
  }

  lemma ImplementationRole(ctx: Context, st: State, patch: Patch, native: seq<Native>)
    requires Passing(ctx, st, patch) && InOrder(native, st.invocations)
    ensures var implementation := Select(native, (n: Native) => n.operation.Implementation?);
            && |implementation| == 1 && implementation[0].tree == ctx.evaluator.tree
            && implementation[0].patch == Some(st.patches[0])
    ensures |Select(native, IsRepair)| == st.repairCount
  {
    SelectInOrder(native, st.invocations, (n: Native) => n.operation.Implementation?, IsImplementing);
    SelectInOrder(native, st.invocations, IsRepair, IsRepairing);
    assert PatchAt(st, patch, 0) == st.patches[0];
  }

  lemma ArchitectureRoles(ctx: Context, st: State, native: seq<Native>)
    requires InOrder(native, st.invocations) && DualHost(ctx.architectures)
    requires Select(st.invocations, IsArchitecture) == ArchitectureExpectations(ctx)
    ensures var architectures := Select(native, (n: Native) => n.operation.Architecture?);
            && (forall k | 0 <= k < |architectures| :: architectures[k].tree == ctx.evaluator.tree)
            && (exists k | 0 <= k < |architectures| :: architectures[k].host == Codex)
            && (exists k | 0 <= k < |architectures| :: architectures[k].host == Claude)
  {
    SelectInOrder(native, st.invocations, (n: Native) => n.operation.Architecture?, IsArchitecture);
    var architectures := Select(native, (n: Native) => n.operation.Architecture?);
    var expected := ArchitectureExpectations(ctx);
    assert forall k | 0 <= k < |architectures| :: Matches(architectures[k], expected[k]);
    var c :| 0 <= c < |ctx.architectures| && ctx.architectures[c].1 == Codex;
    var d :| 0 <= d < |ctx.architectures| && ctx.architectures[d].1 == Claude;
    assert architectures[c].host == Codex && architectures[d].host == Claude;
  }

  lemma FinalReviewRoles(ctx: Context, st: State, patch: Patch, native: seq<Native>)
    requires Passing(ctx, st, patch) && InOrder(native, st.invocations)
    ensures var tree := st.admission.value.candidate.tree;
            var finalReviews := Select(native, (n: Native) => n.operation.Review? && n.tree == tree);
            && (|finalReviews| == 2 <==> FinalTreeIsFresh(st))
            && (|finalReviews| == 2 ==>
                  && finalReviews == [native[|native| - 2], native[|native| - 1]]
                  && finalReviews[0].host != finalReviews[1].host)
  {
    var tree, m := st.admission.value.candidate.tree, |native|;
    var keep := (n: Native) => n.operation.Review? && n.tree == tree;
    assert Matches(native[m - 2], st.invocations[m - 2]) && Matches(native[m - 1], st.invocations[m - 1]);
    LastTwoSelected(native, keep);
    forall i | 0 <= i < m - 2
      ensures keep(native[i]) <==> st.invocations[i].operation.Review? && st.invocations[i].tree == tree
    {
      assert Matches(native[i], st.invocations[i]);
    }
  }

  /** Producer and parser agree: a passing end whose evidence is listed in order yields evidence carrying the
      sealed transitions unchanged, exactly when its final tree was reviewed in no earlier attempt. */
  lemma ProducerAndParserAgree(ctx: Context, st: State, patch: Patch, native: seq<Native>)
    requires Passing(ctx, st, patch) && InOrder(native, st.invocations) && DistinctIds(native)
             && DualHost(ctx.architectures)
    ensures Seal(st.drafts, native).Success?
    ensures var receipt, ts := ReceiptOf(ctx, st, Pass, Some(native)), Seal(st.drafts, native).value;
            if FinalTreeIsFresh(st)
               then CreateEvidence(receipt, native, ts) == Success(Evidence(receipt, native, native, ts, ts))
            else CreateEvidence(receipt, native, ts) == Failure(RoleMismatch)
  {
    SealedTransitionsParse(ctx, st, patch, native);
    RolesBoundExactly(ctx, st, patch, native);
  }

  /** Concluding a passing end: evidence exactly when the final tree is fresh, otherwise a passing receipt
      followed by a failing one. */
  lemma PassingEndConcludes(ctx: Context, st: State, patch: Patch)
    requires Passing(ctx, st, patch) && DualHost(ctx.architectures) && ctx.runtime.Some? && ctx.cleanup
    requires InOrder(ctx.runtime.value, st.invocations) && DistinctIds(ctx.runtime.value)
    ensures var outcome := Conclude(ctx, st, Passed);
            var native, receipt := ctx.runtime.value, ReceiptOf(ctx, st, Pass, ctx.runtime);
            && (outcome.status == Pass <==> FinalTreeIsFresh(st))
            && (outcome.status == Pass ==>
                  && outcome.receipts == [receipt]
                  && outcome.evidence.Some?
                  && Seal(st.drafts, native) == Success(outcome.evidence.value.transitions)
                  && ParseEvidence(outcome.evidence.value, receipt) == Success(outcome.evidence.value))
            && (outcome.status != Pass ==>
                  outcome.evidence.None? && outcome.receipts == [receipt, ReceiptOf(ctx, st, Fail, ctx.runtime)])
  {
    InOrderIsBound(ctx, st, patch, ctx.runtime.value);
    ProducerAndParserAgree(ctx, st, patch, ctx.runtime.value);
  }

  /** End to end, over every script of replies: with trusted ordered evidence and a working cleanup, a run
      whose gates all pass concludes with sealed evidence exactly when its final tree is fresh. The evidence
      parses to itself, chains through the patch history and uses each repair invocation once. */
  lemma PassingRunConcludes(ctx: Context, implementation: Patch)
    requires ctx.maxRepairs <= MAX_ATTEMPT && DualHost(ctx.architectures) && ctx.runtime.Some? && ctx.cleanup
    requires var (end, ending) := Run(ctx, Start(ctx, implementation), implementation);
             ending.Passed? && InOrder(ctx.runtime.value, end.invocations) && DistinctIds(ctx.runtime.value)
    ensures var (end, ending) := Run(ctx, Start(ctx, implementation), implementation);
            var outcome := Conclude(ctx, end, ending);
            && (outcome.status == Pass <==> FinalTreeIsFresh(end))
            && (outcome.status == Pass ==>
                  && outcome.evidence.Some?
                  && Chain(outcome.evidence.value.transitions, end.patches)
                  && UsesEachRepairOnce(outcome.evidence.value.transitions, ctx.runtime.value))
            && (outcome.status != Pass ==>
                  outcome.receipts == [ReceiptOf(ctx, end, Pass, ctx.runtime), ReceiptOf(ctx, end, Fail, ctx.runtime)])
  {
    var end := Run(ctx, Start(ctx, implementation), implementation).0;
    TransactionKeepsBooks(ctx, implementation);
    var patch :| Passing(ctx, end, patch);
    PassingEndConcludes(ctx, end, patch);
    if FinalTreeIsFresh(end) {
      var evidence, receipt := Conclude(ctx, end, Passed).evidence.value, ReceiptOf(ctx, end, Pass, ctx.runtime);
      AcceptedTransitionsChain(evidence, receipt);
      AcceptedTransitionsUseEachRepairOnce(evidence, receipt);
    }
  }

  lemma InOrderIsBound(ctx: Context, st: State, patch: Patch, native: seq<Native>)
    requires Passing(ctx, st, patch) && InOrder(native, st.invocations) && DistinctIds(native)
             && DualHost(ctx.architectures)
    ensures Bound(native, st.invocations)
  {
    ArchitectureRoles(ctx, st, native);
    var keep := (n: Native) => n.operation.Architecture?;
    var architectures := Select(native, keep);
    var c :| 0 <= c < |architectures| && architectures[c].host == Codex;
    var d :| 0 <= d < |architectures| && architectures[d].host == Claude;
    SelectKeeps(native, keep, architectures[c]);
    SelectKeeps(native, keep, architectures[d]);
    assert forall i | 0 <= i < |native| :: Matches(native[i], st.invocations[i]);
  }
}
