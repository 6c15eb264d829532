/** Runtime evidence in any order: which listings of the same invocations the strict parser accepts. */
module CandidateOrders {
  import opened Basics
  import opened CandidateEvidence
  import opened CandidateTransaction
  import opened CandidateLaws
  import opened CandidateAgreement

  /** Two listings of the same invocations. */
  ghost predicate SameElements(a: seq<Native>, b: seq<Native>) {
    && |a| == |b| && DistinctIds(a) && DistinctIds(b)
    && forall n :: n in a <==> n in b
  }

  // ----- A bound listing can be put in order -----

  function ExpectedIds(expected: seq<Expectation>): set<string> {
    set e | e in expected :: e.id
  }

  lemma {:induction false} ExpectedCount(expected: seq<Expectation>)
    requires forall i, j | 0 <= i < j < |expected| :: expected[i].id != expected[j].id
    ensures |ExpectedIds(expected)| == |expected|
  {
    if expected != [] {
      var front, last := expected[..|expected| - 1], expected[|expected| - 1];
      ExpectedCount(front);
      assert expected == front + [last];
      assert ExpectedIds(expected) == ExpectedIds(front) + {last.id} && last.id !in ExpectedIds(front);
    }
  }

  lemma SameSize<T>(small: set<T>, large: set<T>)
    requires small <= large && |small| == |large|
    ensures small == large
  {
    if small != large {
      var x :| x in large && x !in small;
      assert small <= large - {x};
      SmallerSize(small, large - {x});
    }
  }

  lemma SmallerSize<T>(small: set<T>, large: set<T>)
    requires small <= large
    ensures |small| <= |large|
  {
    if x :| x in small {
      SmallerSize(small - {x}, large - {x});
    }
  }

  /** Every expectation is met by a listed invocation. */
  lemma EveryExpectationIsMet(native: seq<Native>, expected: seq<Expectation>, j: nat)
    requires Bound(native, expected) && j < |expected|
    ensures Met(native, expected[j])
  {
    DistinctCount(native);
    ExpectedCount(expected);
    assert Ids(native) <= ExpectedIds(expected) by {
      forall n | n in native
        ensures n.id in ExpectedIds(expected)
      {
        var i :| 0 <= i < |native| && native[i] == n;
        var k :| 0 <= k < |expected| && Matches(native[i], expected[k]);
        assert expected[k] in expected;
      }
    }
    SameSize(Ids(native), ExpectedIds(expected));
    assert expected[j] in expected && expected[j].id in ExpectedIds(expected);
    var n :| n in native && n.id == expected[j].id;
    var i :| 0 <= i < |native| && native[i] == n;
    var k :| 0 <= k < |expected| && Matches(native[i], expected[k]);
    assert k == j;
  }

  ghost predicate Met(native: seq<Native>, e: Expectation) {
    exists n :: n in native && Matches(n, e)
  }

  lemma {:induction false} AlignFirst(native: seq<Native>, expected: seq<Expectation>, count: nat)
    returns (aligned: seq<Native>)
    requires count <= |expected| && forall j | 0 <= j < |expected| :: Met(native, expected[j])
    ensures |aligned| == count && forall j | 0 <= j < count :: aligned[j] in native && Matches(aligned[j], expected[j])
  {
    aligned := [];
    if count > 0 {
      var front := AlignFirst(native, expected, count - 1);
      assert Met(native, expected[count - 1]);
      var n :| n in native && Matches(n, expected[count - 1]);
      aligned := front + [n];
    }
  }

  /** A bound listing holds the same invocations as one in the order of the expectations. */
  lemma Align(native: seq<Native>, expected: seq<Expectation>) returns (aligned: seq<Native>)
    requires Bound(native, expected)
    ensures InOrder(aligned, expected) && SameElements(native, aligned)
  {
    forall j | 0 <= j < |expected|
      ensures Met(native, expected[j])
    {
      EveryExpectationIsMet(native, expected, j);
    }
    aligned := AlignFirst(native, expected, |expected|);
    forall i, j | 0 <= i < j < |aligned|
      ensures aligned[i].id != aligned[j].id
    {
      assert Matches(aligned[i], expected[i]) && Matches(aligned[j], expected[j]);
    }
    DistinctCount(native);
    DistinctCount(aligned);
    assert Ids(aligned) <= Ids(native);
    SameSize(Ids(aligned), Ids(native));
    forall n | n in native
      ensures n in aligned
    {
      assert n.id in Ids(aligned);
      var m :| m in aligned && m.id == n.id;
      IdsDistinguish(native, m, n);
    }
  }

  // ----- What does not depend on the order -----

  lemma {:induction false} SelectHolds<T>(items: seq<T>, keep: T -> bool)
    ensures forall item :: item in Select(items, keep) <==> item in items && keep(item)
  {
    if items != [] {
      SelectHolds(items[..|items| - 1], keep);
      assert items == items[..|items| - 1] + [items[|items| - 1]];
    }
  }

  lemma SelectSame(a: seq<Native>, b: seq<Native>, keep: Native -> bool)
    requires SameElements(a, b)
    ensures SameElements(Select(a, keep), Select(b, keep))
  {
    SelectHolds(a, keep);
    SelectHolds(b, keep);
    SelectDistinct(a, keep);
    SelectDistinct(b, keep);
    DistinctCount(Select(a, keep));
    DistinctCount(Select(b, keep));
    assert Ids(Select(a, keep)) == Ids(Select(b, keep));
  }

  lemma IdsSame(a: seq<Native>, b: seq<Native>)
    requires SameElements(a, b)
    ensures Ids(a) == Ids(b)
  {
  }

  lemma FindSame(a: seq<Native>, b: seq<Native>, id: string)
    requires SameElements(a, b)
    ensures FindRepair(a, id) == FindRepair(b, id)
  {
    FindRepairIsListed(a, id);
    FindRepairIsListed(b, id);
    if FindRepair(a, id).Some? {
      FindRepairUnique(b, FindRepair(a, id).value);
    } else if FindRepair(b, id).Some? {
      FindRepairUnique(a, FindRepair(b, id).value);
    }
  }

  lemma {:induction false} SealFirstSame(drafts: seq<Draft>, a: seq<Native>, b: seq<Native>, count: nat)
    requires SameElements(a, b) && count <= |drafts|
    ensures SealFirst(drafts, a, count) == SealFirst(drafts, b, count)
  {
    if count > 0 {
      SealFirstSame(drafts, a, b, count - 1);
      FindSame(a, b, drafts[count - 1].invocationId);
    }
  }

  /** Sealing does not depend on the order the runtime lists its invocations in. */
  lemma SealSame(drafts: seq<Draft>, a: seq<Native>, b: seq<Native>)
    requires SameElements(a, b)
    ensures Seal(drafts, a) == Seal(drafts, b)
  {
    SealFirstSame(drafts, a, b, |drafts|);
    SelectSame(a, b, IsRepair);
    IdsSame(Select(a, IsRepair), Select(b, IsRepair));
  }

  /** Receipts that differ in the runtime evidence they name only. */
  ghost predicate SameReceipt(r: Receipt, q: Receipt) {
    q == r.(nativeEvidence := q.nativeEvidence)
  }

  lemma {:induction false} ParseFirstSame(
    input: seq<Transition>, r: Receipt, q: Receipt, a: seq<Native>, b: seq<Native>, count: nat)
    requires SameElements(a, b) && SameReceipt(r, q) && count <= |input|
    ensures ParseFirst(input, r, a, count) == ParseFirst(input, q, b, count)
  {
    if count > 0 {
      ParseFirstSame(input, r, q, a, b, count - 1);
      FindSame(a, b, input[count - 1].body.native.id);
    }
  }

  lemma ParseSame(input: seq<Transition>, r: Receipt, q: Receipt, a: seq<Native>, b: seq<Native>)
    requires SameElements(a, b) && SameReceipt(r, q)
    ensures ParseRepairTransitions(input, r, a) == ParseRepairTransitions(input, q, b)
  {
    ParseFirstSame(input, r, q, a, b, |input|);
    SelectSame(a, b, IsRepair);
    IdsSame(Select(a, IsRepair), Select(b, IsRepair));
  }

  // ----- What does -----

  /** The two invocations listed last are the two expected last, in either order. */
  ghost predicate ReviewsListedLast(native: seq<Native>, expected: seq<Expectation>) {
    && |native| >= 2 && |expected| >= 2
    && {native[|native| - 2].id, native[|native| - 1].id} == {expected[|expected| - 2].id, expected[|expected| - 1].id}
  }

  lemma OneElement(a: seq<Native>, b: seq<Native>)
    requires SameElements(a, b) && |a| == 1
    ensures a == b
  {
    assert b[0] in a;
  }

  lemma TwoElements(a: seq<Native>, b: seq<Native>)
    requires SameElements(a, b) && |a| == 2
    ensures (a[0] == b[0] && a[1] == b[1]) || (a[0] == b[1] && a[1] == b[0])
  {
    assert a[0] in b && a[1] in b;
  }

  /** Everything of the role check but the final reviews. */
  ghost predicate OtherRoles(receipt: Receipt, native: seq<Native>) {
    var implementation := Select(native, (n: Native) => n.operation.Implementation?);
    var architectures := Select(native, (n: Native) => n.operation.Architecture?);
    && |implementation| == 1
    && implementation[0].tree == receipt.evaluator.tree
    && |receipt.patchDigests| > 0 && implementation[0].patch == Some(receipt.patchDigests[0])
    && |Select(native, IsRepair)| == receipt.repairCount
    && (forall k | 0 <= k < |architectures| :: architectures[k].tree == receipt.evaluator.tree)
    && (exists k | 0 <= k < |architectures| :: architectures[k].host == Codex)
    && (exists k | 0 <= k < |architectures| :: architectures[k].host == Claude)
  }

  function FinalReviews(receipt: Receipt, native: seq<Native>): seq<Native> {
    Select(native, (n: Native) => n.operation.Review? && n.tree == receipt.candidate.tree)
  }

  ghost predicate FinalRoles(receipt: Receipt, native: seq<Native>) {
    var reviews := FinalReviews(receipt, native);
    && |reviews| == 2 && reviews[0].host != reviews[1].host
    && |native| >= 2 && native[|native| - 2] == reviews[0] && native[|native| - 1] == reviews[1]
  }

  lemma RolesSplit(receipt: Receipt, native: seq<Native>)
    ensures RolesBound(receipt, native) <==> OtherRoles(receipt, native) && FinalRoles(receipt, native)
  {
  }

  lemma HostsSame(a: seq<Native>, b: seq<Native>, host: Host)
    requires SameElements(a, b) && exists k | 0 <= k < |a| :: a[k].host == host
    ensures exists k | 0 <= k < |b| :: b[k].host == host
  {
    var k :| 0 <= k < |a| && a[k].host == host;
    assert a[k] in b;
  }

  lemma OtherRolesSame(r: Receipt, q: Receipt, a: seq<Native>, b: seq<Native>)
    requires SameElements(a, b) && SameReceipt(r, q) && OtherRoles(r, a)
    ensures OtherRoles(q, b)
  {
    var implements, plans := (n: Native) => n.operation.Implementation?, (n: Native) => n.operation.Architecture?;
    SelectSame(a, b, implements);
    OneElement(Select(a, implements), Select(b, implements));
    SelectSame(a, b, IsRepair);
    SelectSame(a, b, plans);
    HostsSame(Select(a, plans), Select(b, plans), Codex);
    HostsSame(Select(a, plans), Select(b, plans), Claude);
    forall k | 0 <= k < |Select(b, plans)|
      ensures Select(b, plans)[k].tree == q.evaluator.tree
    {
      assert Select(b, plans)[k] in Select(a, plans);
    }
  }

  /** The role check of a passing transaction, for any listing: the final tree is fresh and its two reviews
      are listed last. */
  lemma RolesBoundInAnyOrder(ctx: Context, st: State, patch: Patch, native: seq<Native>)
    requires Passing(ctx, st, patch) && Bound(native, st.invocations) && DualHost(ctx.architectures)
    ensures RolesBound(ReceiptOf(ctx, st, Pass, Some(native)), native)
            <==> FinalTreeIsFresh(st) && ReviewsListedLast(native, st.invocations)
  {
    var aligned := Align(native, st.invocations);
    var r, q := ReceiptOf(ctx, st, Pass, Some(aligned)), ReceiptOf(ctx, st, Pass, Some(native));
    OrderedOthers(ctx, st, patch, aligned);
    OtherRolesSame(r, q, aligned, native);
    RolesSplit(q, native);
    FinalReviewRoles(ctx, st, patch, aligned);
    LastTwoMatter(ctx, st, patch, native, aligned);
  }

  lemma OrderedOthers(ctx: Context, st: State, patch: Patch, aligned: seq<Native>)
    requires Passing(ctx, st, patch) && InOrder(aligned, st.invocations) && DualHost(ctx.architectures)
    ensures OtherRoles(ReceiptOf(ctx, st, Pass, Some(aligned)), aligned)
  {
    ImplementationRole(ctx, st, patch, aligned);
    ArchitectureRoles(ctx, st, aligned);
  }

  function Reviewing(tree: string): Native -> bool {
    (n: Native) => n.operation.Review? && n.tree == tree
  }

  lemma LastTwoMatter(ctx: Context, st: State, patch: Patch, native: seq<Native>, aligned: seq<Native>)
    requires Passing(ctx, st, patch) && InOrder(aligned, st.invocations) && SameElements(native, aligned)
    ensures FinalRoles(ReceiptOf(ctx, st, Pass, Some(native)), native)
            <==> FinalTreeIsFresh(st) && ReviewsListedLast(native, st.invocations)
  {
    var q := ReceiptOf(ctx, st, Pass, Some(native));
    var tree := st.admission.value.candidate.tree;
    assert q.candidate.tree == tree;
    FinalReviewRoles(ctx, st, patch, aligned);
    SelectExtensional(native, (n: Native) => n.operation.Review? && n.tree == q.candidate.tree, Reviewing(tree));
    SelectExtensional(aligned, (n: Native) => n.operation.Review? && n.tree == tree, Reviewing(tree));
    LastReviews(q, native, aligned, st.invocations);
  }

  lemma {:induction false} SelectExtensional<T>(items: seq<T>, one: T -> bool, other: T -> bool)
    requires forall item :: one(item) == other(item)
    ensures Select(items, one) == Select(items, other)
  {
    if items != [] {
      SelectExtensional(items[..|items| - 1], one, other);
    }
  }

  lemma LastReviews(receipt: Receipt, native: seq<Native>, aligned: seq<Native>, expected: seq<Expectation>)
    requires InOrder(aligned, expected) && SameElements(native, aligned) && |native| >= 2
    requires var chosen := Select(aligned, Reviewing(receipt.candidate.tree));
             |chosen| == 2 ==>
               chosen == [aligned[|native| - 2], aligned[|native| - 1]] && chosen[0].host != chosen[1].host
    ensures FinalRoles(receipt, native) <==>
            |Select(aligned, Reviewing(receipt.candidate.tree))| == 2 && ReviewsListedLast(native, expected)
  {
    var keep, m := Reviewing(receipt.candidate.tree), |native|;
    SelectExtensional(native, (n: Native) => n.operation.Review? && n.tree == receipt.candidate.tree, keep);
    SelectSame(native, aligned, keep);
    assert FinalReviews(receipt, native) == Select(native, keep);
    if |Select(aligned, keep)| == 2 {
      assert Matches(aligned[m - 2], expected[m - 2]) && Matches(aligned[m - 1], expected[m - 1]);
      LastPair(native, aligned, keep, m);
    }
  }

  /** When the selected invocations are the two listed last, in a second listing they are so as well exactly
      when its two last have the same ids. */
  lemma LastPair(native: seq<Native>, aligned: seq<Native>, keep: Native -> bool, m: nat)
    requires SameElements(native, aligned) && m == |native| >= 2
    requires Select(aligned, keep) == [aligned[m - 2], aligned[m - 1]]
    ensures var chosen := Select(native, keep);
            && |chosen| == 2 && {chosen[0], chosen[1]} == {aligned[m - 2], aligned[m - 1]}
            && (aligned[m - 2].host != aligned[m - 1].host ==> chosen[0].host != chosen[1].host)
            && (native[m - 2] == chosen[0] && native[m - 1] == chosen[1] <==>
                {native[m - 2].id, native[m - 1].id} == {aligned[m - 2].id, aligned[m - 1].id})
  {
    var chosen := Select(native, keep);
    SelectSame(native, aligned, keep);
    TwoElements(chosen, Select(aligned, keep));
    if {native[m - 2].id, native[m - 1].id} == {aligned[m - 2].id, aligned[m - 1].id} {
      IdsDistinguishLast(native, aligned, m);
      SelectHolds(aligned, keep);
      assert aligned[m - 2] in Select(aligned, keep) && aligned[m - 1] in Select(aligned, keep);
      LastTwoSelected(native, keep);
    }
  }

  lemma IdsDistinguishLast(native: seq<Native>, aligned: seq<Native>, m: nat)
    requires SameElements(native, aligned) && m == |native| >= 2
    requires {native[m - 2].id, native[m - 1].id} == {aligned[m - 2].id, aligned[m - 1].id}
    ensures {native[m - 2], native[m - 1]} == {aligned[m - 2], aligned[m - 1]}
  {
    assert native[m - 2] in aligned && native[m - 1] in aligned;
    if native[m - 2].id == aligned[m - 2].id {
      IdsDistinguish(aligned, native[m - 2], aligned[m - 2]);
      IdsDistinguish(aligned, native[m - 1], aligned[m - 1]);
    } else {
      IdsDistinguish(aligned, native[m - 2], aligned[m - 1]);
      IdsDistinguish(aligned, native[m - 1], aligned[m - 2]);
    }
  }

  /** Producer and parser, in any order: what is sealed always parses to itself, and evidence is created
      exactly when the final tree is fresh and its two reviews are listed last. */
  lemma AcceptedOrdersExactly(ctx: Context, st: State, patch: Patch, native: seq<Native>)
    requires Passing(ctx, st, patch) && Bound(native, st.invocations) && DualHost(ctx.architectures)
    ensures Seal(st.drafts, native).Success?
    ensures var receipt, ts := ReceiptOf(ctx, st, Pass, Some(native)), Seal(st.drafts, native).value;
            && ParseRepairTransitions(ts, receipt, native) == Success(ts)
            && CreateEvidence(receipt, native, ts) ==
               if FinalTreeIsFresh(st) && ReviewsListedLast(native, st.invocations)
               then Success(Evidence(receipt, native, native, ts, ts)) else Failure(RoleMismatch)
  {
    var aligned := Align(native, st.invocations);
    SealedTransitionsParse(ctx, st, patch, aligned);
    SealSame(st.drafts, native, aligned);
    var r, q := ReceiptOf(ctx, st, Pass, Some(native)), ReceiptOf(ctx, st, Pass, Some(aligned));
    ParseSame(Seal(st.drafts, native).value, r, q, native, aligned);
    RolesBoundInAnyOrder(ctx, st, patch, native);
  }

  /** Concluding a run whose gates all passed, with runtime evidence and a working cleanup: it passes exactly
      when the evidence binds, the final tree is fresh and its reviews are listed last. */
  lemma PassingEndInAnyOrder(ctx: Context, st: State, patch: Patch)
    requires Passing(ctx, st, patch) && DualHost(ctx.architectures) && ctx.runtime.Some? && ctx.cleanup
    ensures var native := ctx.runtime.value;
            Conclude(ctx, st, Passed).status == Pass <==>
            Bound(native, st.invocations) && FinalTreeIsFresh(st) && ReviewsListedLast(native, st.invocations)
  {
    if Bound(ctx.runtime.value, st.invocations) {
      AcceptedOrdersExactly(ctx, st, patch, ctx.runtime.value);
    }
  }

  /** The same over every script of replies. */
  lemma PassingRunEndsInAnyOrder(ctx: Context, implementation: Patch)
    requires ctx.maxRepairs <= MAX_ATTEMPT && DualHost(ctx.architectures) && ctx.runtime.Some? && ctx.cleanup
    requires Run(ctx, Start(ctx, implementation), implementation).1.Passed?
    ensures var end, native := Run(ctx, Start(ctx, implementation), implementation).0, ctx.runtime.value;
            Conclude(ctx, end, Passed).status == Pass <==>
            Bound(native, end.invocations) && FinalTreeIsFresh(end) && ReviewsListedLast(native, end.invocations)
  {
    var end := Run(ctx, Start(ctx, implementation), implementation).0;
    TransactionKeepsBooks(ctx, implementation);
    var patch :| Passing(ctx, end, patch);
    PassingEndInAnyOrder(ctx, end, patch);
  }
}
