/** Siblings integrated, checked, committed and finished one after another: the order does not matter. */
module LifecycleOrder {
  import opened Basics
  import opened Integration
  import opened Records
  import opened Reservations
  import opened Lifecycle
  import opened LifecycleInvariant
  import opened LifecycleSaves
  import opened LifecycleClaims
  import LifecycleTheorems

  /** A sibling as it is offered for integration. */
  datatype Sibling = Sibling(input: IntegrationInput, checkout: Checkout)

  function MergeOf(x: Sibling): Integration.Candidate {
    MergeCandidate(x.checkout, x.input.expected)
  }

  function Merges(xs: seq<Sibling>): (cs: seq<Integration.Candidate>)
    ensures |cs| == |xs| && forall i | 0 <= i < |xs| :: cs[i] == MergeOf(xs[i])
  {
    seq(|xs|, i requires 0 <= i < |xs| => MergeOf(xs[i]))
  }

  // ----- Commits are ordered by height -----

  function Height(r: Revision): nat {
    1 + Highest(r.parents)
  }

  function Highest(rs: seq<Revision>): nat {
    if rs == [] then 0
    else
      var first, rest := Height(rs[0]), Highest(rs[1..]);
      if first > rest then first else rest
  }

  lemma {:induction false} ParentIsLower(rs: seq<Revision>, i: nat)
    requires i < |rs|
    ensures Height(rs[i]) <= Highest(rs)
  {
    if i > 0 {
      ParentIsLower(rs[1..], i - 1);
    }
  }

  lemma {:induction false} AncestorIsLower(ancestor: Revision, revision: Revision)
    requires IsAncestor(ancestor, revision)
    ensures Height(ancestor) <= Height(revision)
    decreases revision
  {
    if ancestor != revision {
      var i :| 0 <= i < |revision.parents| && IsAncestor(ancestor, revision.parents[i]);
      AncestorIsLower(ancestor, revision.parents[i]);
      ParentIsLower(revision.parents, i);
    }
  }

  lemma ChildIsHigher(commit: Revision, parent: Revision)
    requires commit.parents == [parent]
    ensures Height(commit) > Height(parent)
  {
    ParentIsLower(commit.parents, 0);
  }

  // ----- Between integrations -----

  /** A clean, unclaimed canonical tree whose recorded commits are no higher than its head. */
  ghost predicate AtRest(s: State) {
    && s.kind == Main && s.active.None? && s.files == s.head.tree
    && (forall i | 0 <= i < |s.names| :: s.names[i] in s.records)
    && (forall id | id in s.records && s.records[id].commit.Some? ::
        Height(s.records[id].commit.value) <= Height(s.head))
  }

  /** Every guard of preparation but the merge itself: custody, reservations, identity and review. */
  ghost predicate Offered(s: State, x: Sibling) {
    var input, c := x.input, x.checkout;
    var original := input.expected;
    && input.id !in s.records && input.revalidate.None? && c.record == Some(original)
    && c.custody.cleanBase
       && Outside(c.source, Elements(c.custody.scope)) == Outside(c.custody.base, Elements(c.custody.scope))
    && IntegrationFree(Reservations.Active(s.pools, s.busy), Elements(original.task.scope), c.custody.resources)
    && original.task.owner == input.owner && original.task.scope == c.custody.scope && original.task.id == input.id
    && original.baseCommit == c.custody.baseCommit && original.task.readPaths == c.custody.declaredReads
    && !c.busy && CandidateValid(original, c.source, s.environment, c.logs) && LogsPresent(original, c.logs)
    && IsAncestor(c.custody.baseCommit, s.head)
  }

  function CanonicalOf(s: State, base: Revision): Canonical {
    Canonical(s.files, Since(s.names, s.records, base, s.head))
  }

  lemma OfferedIsReady(s: State, x: Sibling, base: Tree, origin: Revision, after: Tree)
    requires AtRest(s) && Offered(s, x) && x.checkout.custody.base == base && x.checkout.custody.baseCommit == origin
    requires Prepare(base, CanonicalOf(s, origin), MergeOf(x), false) == Success(after)
    ensures PrepareIntegration(s, x.input, x.checkout)
            == Ready(Prepared(s, x.input, x.checkout, x.input.expected, after))
  {
  }

  /** The prepared run `after` has been checked, reviewed where needed, committed and finished; no other record
      was touched meanwhile. */
  ghost predicate Finishes(s: State, x: Sibling, after: Tree, t: State, commit: Revision, u: State) {
    var id := x.input.id;
    && t.kind == Main && t.names == s.names + [id] && t.records.Keys == s.records.Keys + {id}
    && (forall other | other in s.records :: t.records[other] == s.records[other])
    && SameIdentity(Prepared(s, x.input, x.checkout, x.input.expected, after), t.records[id])
    && FinishPlan(t, id, x.input.owner, commit).outcome.Done?
    && u == Perform(t, FinishPlan(t, id, x.input.owner, commit).writes)
  }

  // ----- The history a finished run leaves -----

  lemma {:induction false} FindFrame(
    names: seq<string>, records: map<string, Run>, id: string, now: map<string, Run>, commit: Revision)
    requires forall i | 0 <= i < |names| :: names[i] in records && names[i] != id
    requires id in now && now[id].commit != Some(commit)
    requires forall other | other in records :: other in now && now[other] == records[other]
    ensures FindIntegrated(names + [id], now, commit) == FindIntegrated(names, records, commit)
  {
    if names == [] {
      assert ([] + [id])[1..] == [];
    } else {
      FindFrame(names[1..], records, id, now, commit);
      assert (names + [id])[1..] == names[1..] + [id];
    }
  }

  lemma {:induction false} FindNew(
    names: seq<string>, records: map<string, Run>, id: string, now: map<string, Run>, commit: Revision)
    requires forall i | 0 <= i < |names| :: names[i] in records && names[i] != id
    requires id in now && IntegratedBy(now[id], commit)
    requires forall other | other in records ::
             other in now && now[other] == records[other] && records[other].commit != Some(commit)
    ensures FindIntegrated(names + [id], now, commit) == Some(now[id])
  {
    if names != [] {
      FindNew(names[1..], records, id, now, commit);
      assert (names + [id])[1..] == names[1..] + [id];
    }
  }

  lemma {:induction false} SinceFrame(
    names: seq<string>, records: map<string, Run>, id: string, now: map<string, Run>, base: Revision, head: Revision)
    requires forall i | 0 <= i < |names| :: names[i] in records && names[i] != id
    requires id in now && now[id].commit.Some? && Height(now[id].commit.value) > Height(head)
    requires forall other | other in records :: other in now && now[other] == records[other]
    ensures Since(names + [id], now, base, head) == Since(names, records, base, head)
    decreases head
  {
    if head != base && |head.parents| > 0 {
      ParentIsLower(head.parents, 0);
      SinceFrame(names, records, id, now, base, head.parents[0]);
      FindFrame(names, records, id, now, head);
    }
  }

  lemma MergeTwice(before: Tree, scope: set<Path>, source: Tree)
    ensures Merge(before, scope, Merge(before, scope, source)) == Merge(before, scope, source)
  {
    forall path
      ensures Get(Merge(before, scope, Merge(before, scope, source)), path) == Get(Merge(before, scope, source), path)
    {
      MergeGet(before, scope, source, path);
      MergeGet(before, scope, Merge(before, scope, source), path);
    }
    SameGetsSameTree(Merge(before, scope, Merge(before, scope, source)), Merge(before, scope, source));
  }

  /** What finishing leaves: the merged tree is committed on the old head and is the working tree. */
  lemma FinishedRun(s: State, x: Sibling, after: Tree, t: State, commit: Revision, u: State)
    requires AtRest(s) && Offered(s, x) && Finishes(s, x, after, t, commit, u)
    requires after == Merge(s.files, Elements(x.input.expected.task.scope), x.checkout.source)
    ensures u.head == commit && commit.parents == [s.head] && commit.tree == after && u.files == after
    ensures u.active.None? && u.kind == Main && u.names == t.names
    ensures x.input.id in u.records && u.records == t.records[x.input.id := u.records[x.input.id]]
    ensures IntegratedBy(u.records[x.input.id], commit) && u.records[x.input.id].task == x.input.expected.task
  {
    var id := x.input.id;
    var run := t.records[id];
    FinishDelivers(t, run, commit);
    MergeTwice(s.files, Elements(run.task.scope), x.checkout.source);
    PerformTwo(t, Save(Finished(run, commit)), Release);
    ReadyFrame(run, Finished(run, commit), t.files);
  }

  /** The canonical history after a finish is the history before it and one commit of this sibling's changes. */
  lemma FinishExtendsHistory(s: State, x: Sibling, after: Tree, t: State, commit: Revision, u: State, origin: Revision)
    requires AtRest(s) && Offered(s, x) && Finishes(s, x, after, t, commit, u)
             && x.checkout.custody.baseCommit == origin
    requires after == Merge(s.files, Elements(x.input.expected.task.scope), x.checkout.source)
    ensures AtRest(u) && IsAncestor(origin, u.head)
    ensures CanonicalOf(u, origin) == Canonical(after, CanonicalOf(s, origin).history
              + [Integration.Commit(Changed(s.files, after), Some(Elements(x.input.expected.task.scope)))])
  {
    var id := x.input.id;
    FinishedRun(s, x, after, t, commit, u);
    ChildIsHigher(commit, s.head);
    AncestorIsLower(origin, s.head);
    SinceFrame(s.names, s.records, id, u.records, origin, s.head);
    FindNew(s.names, s.records, id, u.records, commit);
    assert commit.parents[0] == s.head && IsAncestor(origin, commit.parents[0]);
  }

  // ----- Whole cohorts -----

  /** Siblings of one base: the canonical tree where they start. */
  ghost predicate Based(s: State, xs: seq<Sibling>) {
    AtRest(s) && forall i | 0 <= i < |xs| ::
      xs[i].checkout.custody.base == s.files && xs[i].checkout.custody.baseCommit == s.head
  }

  /** One more sibling is integrated and finished. */
  ghost predicate Settled(r: State, x: Sibling, s: State) {
    exists after, t, commit ::
      && PrepareIntegration(r, x.input, x.checkout) == Ready(Prepared(r, x.input, x.checkout, x.input.expected, after))
      && Finishes(r, x, after, t, commit, s)
  }

  ghost predicate Follows(r: State, x: Sibling, s: State) {
    Offered(r, x) && Settled(r, x, s)
  }

  /** The states between the siblings of `order`, integrated and finished one after another. */
  ghost predicate Through(xs: seq<Sibling>, order: seq<nat>, states: seq<State>)
    requires Within(order, |xs|)
  {
    |states| == |order| + 1 && forall k | 0 <= k < |order| :: Follows(states[k], xs[order[k]], states[k + 1])
  }

  /** The siblings of `order` have been integrated and finished, one after another. */
  ghost predicate Settles(start: State, xs: seq<Sibling>, order: seq<nat>, s: State)
    requires Within(order, |xs|)
  {
    exists states :: Through(xs, order, states) && states[0] == start && states[|order|] == s
  }

  lemma PreparedMerge(r: State, x: Sibling, after: Tree)
    requires Offered(r, x)
    requires PrepareIntegration(r, x.input, x.checkout)
             == Ready(Prepared(r, x.input, x.checkout, x.input.expected, after))
    ensures after == Merge(r.files, Elements(x.input.expected.task.scope), x.checkout.source)
    ensures Prepare(x.checkout.custody.base, CanonicalOf(r, x.checkout.custody.baseCommit), MergeOf(x), false)
            == Success(after)
  {
    PreparationMeets(r, x.input, x.checkout);
    LifecycleTheorems.PreparationMerges(r, x.input, x.checkout);
  }

  /** One sibling takes the canonical tree and history as the fold over candidates does. */
  lemma SettledIntegrates(r: State, x: Sibling, s: State, base: Tree, origin: Revision)
    requires AtRest(r) && Offered(r, x) && Settled(r, x, s)
    requires x.checkout.custody.base == base && x.checkout.custody.baseCommit == origin
    ensures AtRest(s) && Integrate(base, CanonicalOf(r, origin), MergeOf(x)) == Success(CanonicalOf(s, origin))
  {
    var after, t, commit :|
      && PrepareIntegration(r, x.input, x.checkout) == Ready(Prepared(r, x.input, x.checkout, x.input.expected, after))
      && Finishes(r, x, after, t, commit, s);
    PreparedMerge(r, x, after);
    FinishExtendsHistory(r, x, after, t, commit, s, origin);
    var changed := set path | path in r.files.Keys + after.Keys && Get(r.files, path) != Get(after, path);
    assert changed == Changed(r.files, after);
  }

  lemma NothingSince(s: State)
    ensures CanonicalOf(s, s.head) == Canonical(s.files, [])
  {
  }

  lemma FoldStep(base: Tree, cs: seq<Integration.Candidate>, order: seq<nat>, next: nat, before: Canonical,
                 after: Canonical)
    requires Within(order, |cs|) && next < |cs|
    requires IntegrateAll(base, cs, order) == Success(before) && Integrate(base, before, cs[next]) == Success(after)
    ensures IntegrateAll(base, cs, order + [next]) == Success(after)
  {
    assert (order + [next])[..|order|] == order;
  }

  lemma TakeNext(order: seq<nat>, count: nat)
    requires 0 < count <= |order|
    ensures order[..count] == order[..count - 1] + [order[count - 1]]
  {
  }

  lemma {:induction false} ThroughFolds(xs: seq<Sibling>, order: seq<nat>, states: seq<State>, count: nat)
    requires Within(order, |xs|) && Through(xs, order, states) && Based(states[0], xs) && count <= |order|
    ensures AtRest(states[count])
    ensures IntegrateAll(states[0].files, Merges(xs), order[..count])
            == Success(CanonicalOf(states[count], states[0].head))
  {
    var start := states[0];
    if count == 0 {
      NothingSince(start);
    } else {
      var next := order[count - 1];
      ThroughFolds(xs, order, states, count - 1);
      SettledIntegrates(states[count - 1], xs[next], states[count], start.files, start.head);
      TakeNext(order, count);
      FoldStep(start.files, Merges(xs), order[..count - 1], next, CanonicalOf(states[count - 1], start.head),
               CanonicalOf(states[count], start.head));
    }
  }

  /** The tree and history reached through the lifecycle are those of the fold over the candidates. */
  lemma SettlesAsFolded(start: State, xs: seq<Sibling>, order: seq<nat>, s: State)
    requires Based(start, xs) && Within(order, |xs|) && Settles(start, xs, order, s)
    ensures AtRest(s)
    ensures IntegrateAll(start.files, Merges(xs), order) == Success(CanonicalOf(s, start.head))
  {
    var states :| Through(xs, order, states) && states[0] == start && states[|order|] == s;
    ThroughFolds(xs, order, states, |order|);
    assert order[..|order|] == order;
  }

  /** However far siblings have been integrated, committed and finished, in whatever order, one more passes
      preparation if and only if it changes something and none of those before it touches it. */
  lemma NextIsReadyExactly(start: State, xs: seq<Sibling>, order: seq<nat>, s: State, x: Sibling)
    requires Based(start, xs) && Within(order, |xs|) && Settles(start, xs, order, s) && Offered(s, x)
    requires x.checkout.custody.base == start.files && x.checkout.custody.baseCommit == start.head
    ensures PrepareIntegration(s, x.input, x.checkout).Ready? <==>
            Changes(start.files, MergeOf(x)) != {} && Untouched(start.files, Merges(xs), order, MergeOf(x))
  {
    SettlesAsFolded(start, xs, order, s);
    OrderIntegratesExactly(start.files, Merges(xs), order);
    var canonical, c := CanonicalOf(s, start.head), MergeOf(x);
    NextIsPreparedExactly(start.files, Merges(xs), order, c, canonical);
    if PrepareIntegration(s, x.input, x.checkout).Ready? {
      ReadyIsPrepared(s, x);
    } else if Prepare(start.files, canonical, c, false).Success? {
      OfferedIsReady(s, x, start.files, start.head, Merge(canonical.files, Scope(c), c.source));
    }
  }

  lemma ReadyIsPrepared(s: State, x: Sibling)
    requires Offered(s, x) && PrepareIntegration(s, x.input, x.checkout).Ready?
    ensures Prepare(x.checkout.custody.base, CanonicalOf(s, x.checkout.custody.baseCommit), MergeOf(x), false).Success?
  {
    PreparationMeets(s, x.input, x.checkout);
    LifecycleTheorems.PreparationMerges(s, x.input, x.checkout);
  }

  /** Siblings that settle one after another each change something, and none touches one after it. */
  lemma SettledOrderIsCompatible(start: State, xs: seq<Sibling>, order: seq<nat>, s: State)
    requires Based(start, xs) && Within(order, |xs|) && Settles(start, xs, order, s)
    ensures Compatible(start.files, Merges(xs), order)
  {
    SettlesAsFolded(start, xs, order, s);
    OrderIntegratesExactly(start.files, Merges(xs), order);
  }

  /** Two runs that integrate, commit and finish the same siblings in any two orders end with the same
      working tree, which is the tree of both heads. */
  lemma HistoriesAgree(start: State, xs: seq<Sibling>, one: seq<nat>, other: seq<nat>, s: State, t: State)
    requires Based(start, xs) && Within(one, |xs|) && Within(other, |xs|) && forall i :: i in one <==> i in other
    requires Settles(start, xs, one, s) && Settles(start, xs, other, t)
    ensures s.files == t.files == s.head.tree == t.head.tree
  {
    SettlesAsFolded(start, xs, one, s);
    SettlesAsFolded(start, xs, other, t);
    OrderDoesNotMatter(start.files, Merges(xs), one, other);
  }
}
