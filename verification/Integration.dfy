/** Integrating private candidates into the canonical tree: the guarded three-way merge.

    A digest is modelled by the value it digests, so equal digests mean equal trees. */
module Integration {
  import opened Basics

  type Tree = map<Path, string>

  datatype Error = InputChanged | UnacceptedDrift | NoChange
  datatype Result<+T> = Success(value: T) | Failure(error: Error)

  /** A reviewed candidate with its canonical custody. `pinned` is custody's read list; `required` is the
      pattern of evaluator, runtime and package inputs, which no declaration can drop. */
  datatype Candidate = Candidate(
    scope: seq<Path>,
    pinned: set<Path>,
    declared: bool,
    required: Path -> bool,
    source: Tree)

  /** One canonical commit since the base, with the completed integrated run found for it. */
  datatype Commit = Commit(paths: set<Path>, sibling: Option<set<Path>>)

  datatype Canonical = Canonical(files: Tree, history: seq<Commit>)

  function Get(tree: Tree, path: Path): Option<string> {
    if path in tree then Some(tree[path]) else None
  }

  function Elements<T>(items: seq<T>): set<T> {
    set item | item in items
  }

  function Scope(c: Candidate): set<Path> {
    Elements(c.scope)
  }

  /** `outsideDigest`: everything but the scoped paths. */
  function Outside(tree: Tree, scope: set<Path>): Tree {
    tree - scope
  }

  /** Read paths re-pinned at integration: custody's reads and every required input of either tree. */
  function ReadPaths(base: Tree, before: Tree, c: Candidate): set<Path> {
    c.pinned + (set path | path in base.Keys + before.Keys && c.required(path)) - Scope(c)
  }

  /** Scoped paths take the candidate's value, or are removed when the candidate removed them. */
  function Merge(before: Tree, scope: set<Path>, source: Tree): Tree {
    map path | path in before.Keys + source.Keys && (if path in scope then path in source else path in before)
      :: if path in scope then source[path] else before[path]
  }

  lemma MergeGet(before: Tree, scope: set<Path>, source: Tree, path: Path)
    ensures Get(Merge(before, scope, source), path) == if path in scope then Get(source, path) else Get(before, path)
  {
  }

  lemma SameGetsSameTree(a: Tree, b: Tree)
    requires forall path :: Get(a, path) == Get(b, path)
    ensures a == b
  {
    assert forall path :: path in a <==> Get(a, path).Some?;
    assert forall path :: path in b <==> Get(b, path).Some?;
    assert forall path | path in a :: a[path] == Get(a, path).value;
    assert forall path | path in b :: b[path] == Get(b, path).value;
  }

  /** The loop that fills the merged file table. */
  method MergeFiles(before: Tree, scope: seq<Path>, source: Tree) returns (after: Tree)
    ensures after == Merge(before, Elements(scope), source)
  {
    after := before;
    for i := 0 to |scope|
      invariant forall path :: Get(after, path) == if path in scope[..i] then Get(source, path) else Get(before, path)
    {
      var path := scope[i];
      assert scope[..i + 1] == scope[..i] + [path];
      if path in source {
        after := after[path := source[path]];
      } else {
        after := after - {path};
      }
    }
    assert scope[..|scope|] == scope;
    forall path
      ensures Get(after, path) == Get(Merge(before, Elements(scope), source), path)
    {
      MergeGet(before, Elements(scope), source, path);
    }
    SameGetsSameTree(after, Merge(before, Elements(scope), source));
  }

  predicate CommitAccepted(commit: Commit, inputs: set<Path>, scope: set<Path>) {
    && commit.sibling.Some? && commit.paths != {}
    && commit.paths <= commit.sibling.value && commit.paths !! inputs && commit.paths !! scope
  }

  /** `prepareIntegration`: the input guards in order, then the merge. With owner revalidation only the
      scope is compared and the commit history is not consulted. */
  function Prepare(base: Tree, canonical: Canonical, c: Candidate, revalidate: bool): Result<Tree> {
    var before, scope := canonical.files, Scope(c);
    var inputs := ReadPaths(base, before, c);
    if exists path | path in (if revalidate then scope else scope + inputs) :: Get(before, path) != Get(base, path)
    then Failure(InputChanged)
    else if !revalidate && !c.declared && Outside(before, scope) != Outside(base, scope) then Failure(InputChanged)
    else if !revalidate && exists i | 0 <= i < |canonical.history| ::
            !CommitAccepted(canonical.history[i], inputs, scope)
    then Failure(UnacceptedDrift)
    else
      var after := Merge(before, scope, c.source);
      if after == before then Failure(NoChange) else Success(after)
  }

  /** What a private candidate keeps: out-of-scope files equal its base snapshot, and undeclared reads pin
      everything. */
  ghost predicate Candidacy(base: Tree, c: Candidate) {
    && Outside(c.source, Scope(c)) == Outside(base, Scope(c))
    && (!c.declared ==> base.Keys <= c.pinned)
  }

  /** Without owner revalidation the merged tree is the candidate's own on scope and reads,
      and entirely when its inputs were undeclared. */
  lemma MergedTreeIsTheReviewedTree(base: Tree, canonical: Canonical, c: Candidate)
    requires Candidacy(base, c)
    requires Prepare(base, canonical, c, false).Success?
    ensures var after := Prepare(base, canonical, c, false).value;
            && (forall path | path in Scope(c) + ReadPaths(base, canonical.files, c) ::
                  Get(after, path) == Get(c.source, path))
            && (!c.declared ==> after == c.source)
            && Outside(after, Scope(c)) == Outside(canonical.files, Scope(c))
  {
    var before, scope := canonical.files, Scope(c);
    var after := Merge(before, scope, c.source);
    forall path
      ensures path !in scope ==> Get(c.source, path) == Get(base, path)
      ensures path !in scope && !c.declared ==> Get(before, path) == Get(base, path)
      ensures Get(after, path) == if path in scope then Get(c.source, path) else Get(before, path)
    {
      MergeGet(before, scope, c.source, path);
      if path !in scope {
        OutsideGet(c.source, base, scope, path);
        if !c.declared {
          OutsideGet(before, base, scope, path);
        }
      }
    }
    if !c.declared {
      SameGetsSameTree(after, c.source);
    }
  }

  lemma OutsideGet(a: Tree, b: Tree, scope: set<Path>, path: Path)
    requires Outside(a, scope) == Outside(b, scope) && path !in scope
    ensures Get(a, path) == Get(b, path)
  {
    assert path in a <==> path in Outside(a, scope);
    assert path in b <==> path in Outside(b, scope);
    assert path in a ==> a[path] == Outside(a, scope)[path];
    assert path in b ==> b[path] == Outside(b, scope)[path];
  }

  // ----- Whole cohorts -----

  /** Integrate and commit: the commit holds exactly the paths that changed. */
  function Integrate(base: Tree, canonical: Canonical, c: Candidate): Result<Canonical> {
    var merged := Prepare(base, canonical, c, false);
    if merged.Failure? then Failure(merged.error)
    else
      var changed := set path | path in canonical.files.Keys + merged.value.Keys
                                && Get(canonical.files, path) != Get(merged.value, path);
      Success(Canonical(merged.value, canonical.history + [Commit(changed, Some(Scope(c)))]))
  }

  predicate Within(order: seq<nat>, count: nat) {
    forall k | 0 <= k < |order| :: order[k] < count
  }

  function IntegrateAll(base: Tree, cs: seq<Candidate>, order: seq<nat>): Result<Canonical>
    requires Within(order, |cs|)
  {
    if order == [] then Success(Canonical(base, []))
    else
      var previous := IntegrateAll(base, cs, order[..|order| - 1]);
      if previous.Failure? then previous else Integrate(base, previous.value, cs[order[|order| - 1]])
  }

  /** The path is, or could become, an input of the candidate: undeclared reads count as everything. */
  predicate EffectivelyReads(c: Candidate, path: Path) {
    !c.declared || path in c.pinned || c.required(path)
  }

  /** The paths a candidate changes, judged from its base. */
  function Changes(base: Tree, c: Candidate): set<Path> {
    set path | path in Scope(c) && Get(base, path) != Get(c.source, path)
  }

  /** One candidate changes a path that another may write or effectively reads. */
  predicate Touches(base: Tree, a: Candidate, b: Candidate) {
    exists path | path in Changes(base, a) :: path in Scope(b) || EffectivelyReads(b, path)
  }

  /** Siblings of one base that each change something and of which none touches another. */
  ghost predicate Independent(base: Tree, cs: seq<Candidate>) {
    && (forall i | 0 <= i < |cs| :: Changes(base, cs[i]) != {})
    && (forall i, j | 0 <= i < |cs| && 0 <= j < |cs| && i != j :: !Touches(base, cs[i], cs[j]))
  }

  ghost predicate Distinct(order: seq<nat>) {
    forall i, j | 0 <= i < j < |order| :: order[i] != order[j]
  }

  /** What the tree must hold after integrating the candidates of `order`, whatever their sequence. */
  ghost predicate Combined(base: Tree, cs: seq<Candidate>, order: seq<nat>, files: Tree)
    requires Within(order, |cs|)
  {
    && (forall i, path | i in order && path in Changes(base, cs[i]) :: Get(files, path) == Get(cs[i].source, path))
    && (forall path | (forall i | i in order :: path !in Changes(base, cs[i])) :: Get(files, path) == Get(base, path))
  }

  /** Every commit since the base holds exactly the changes of its sibling. */
  ghost predicate HistoryOf(base: Tree, cs: seq<Candidate>, order: seq<nat>, history: seq<Commit>)
    requires Within(order, |cs|)
  {
    && |history| == |order|
    && forall k | 0 <= k < |history| ::
         Changes(base, cs[order[k]]) != {}
         && history[k] == Commit(Changes(base, cs[order[k]]), Some(Scope(cs[order[k]])))
  }

  /** No candidate of the order touches this one. */
  ghost predicate Untouched(base: Tree, cs: seq<Candidate>, order: seq<nat>, c: Candidate)
    requires Within(order, |cs|)
  {
    forall i | i in order :: !Touches(base, cs[i], c)
  }

  /** Each candidate of the order changes something, and none is touched by one before it. */
  ghost predicate Compatible(base: Tree, cs: seq<Candidate>, order: seq<nat>)
    requires Within(order, |cs|)
  {
    && (forall k | 0 <= k < |order| :: Changes(base, cs[order[k]]) != {})
    && (forall k, l | 0 <= k < l < |order| :: !Touches(base, cs[order[k]], cs[order[l]]))
  }

  /** A touched candidate finds an input changed. */
  lemma TouchedIsRefused(base: Tree, canonical: Canonical, a: Candidate, b: Candidate)
    requires Touches(base, a, b)
    requires forall path | path in Changes(base, a) :: Get(canonical.files, path) == Get(a.source, path)
    ensures Prepare(base, canonical, b, false) == Failure(InputChanged)
  {
    var path :| path in Changes(base, a) && (path in Scope(b) || EffectivelyReads(b, path));
    var before, scope := canonical.files, Scope(b);
    assert Get(before, path) != Get(base, path);
    if path !in scope && !b.declared {
      if Outside(before, scope) == Outside(base, scope) {
        OutsideGet(before, base, scope, path);
      }
    } else if path !in scope {
      assert path in base.Keys + before.Keys;
      assert path in ReadPaths(base, before, b);
    }
  }

  /** A candidate without changes is refused, whatever came before it. */
  lemma UnchangedIsRefused(base: Tree, canonical: Canonical, c: Candidate)
    requires Changes(base, c) == {}
    ensures Prepare(base, canonical, c, false).Failure?
  {
    var before, after := canonical.files, Merge(canonical.files, Scope(c), c.source);
    if forall path | path in Scope(c) :: Get(before, path) == Get(base, path) {
      forall path
        ensures Get(after, path) == Get(before, path)
      {
        MergeGet(before, Scope(c), c.source, path);
        assert path in Scope(c) ==> path !in Changes(base, c);
      }
      SameGetsSameTree(after, before);
    }
  }

  /** What an untouched candidate may write or effectively reads is as in the base. */
  lemma UntouchedInputs(base: Tree, cs: seq<Candidate>, order: seq<nat>, c: Candidate, files: Tree, path: Path)
    requires Within(order, |cs|) && Combined(base, cs, order, files) && Untouched(base, cs, order, c)
    requires path in Scope(c) || EffectivelyReads(c, path)
    ensures Get(files, path) == Get(base, path)
    ensures forall i | i in order :: path !in Changes(base, cs[i])
  {
    forall i | i in order
      ensures path !in Changes(base, cs[i])
    {
      assert !Touches(base, cs[i], c);
    }
  }

  lemma InputsStand(base: Tree, cs: seq<Candidate>, order: seq<nat>, c: Candidate, before: Tree)
    requires Within(order, |cs|) && Combined(base, cs, order, before) && Untouched(base, cs, order, c)
    ensures forall path | path in Scope(c) + ReadPaths(base, before, c) ::
              Get(before, path) == Get(base, path) && forall i | i in order :: path !in Changes(base, cs[i])
    ensures !c.declared ==> before == base
  {
    forall path | path in Scope(c) + ReadPaths(base, before, c)
      ensures Get(before, path) == Get(base, path) && forall i | i in order :: path !in Changes(base, cs[i])
    {
      UntouchedInputs(base, cs, order, c, before, path);
    }
    if !c.declared {
      forall path
        ensures Get(before, path) == Get(base, path)
      {
        UntouchedInputs(base, cs, order, c, before, path);
      }
      SameGetsSameTree(before, base);
    }
  }

  lemma HistoryStands(base: Tree, cs: seq<Candidate>, order: seq<nat>, history: seq<Commit>, inputs: set<Path>,
                      scope: set<Path>)
    requires Within(order, |cs|) && HistoryOf(base, cs, order, history)
    requires forall path | path in scope + inputs :: forall i | i in order :: path !in Changes(base, cs[i])
    ensures forall k | 0 <= k < |history| :: CommitAccepted(history[k], inputs, scope)
  {
    forall k | 0 <= k < |history|
      ensures CommitAccepted(history[k], inputs, scope)
    {
      assert order[k] in order;
      assert forall path | path in history[k].paths :: path !in scope + inputs;
    }
  }

  lemma UntouchedIsPrepared(base: Tree, cs: seq<Candidate>, order: seq<nat>, c: Candidate, canonical: Canonical)
    requires Within(order, |cs|) && Combined(base, cs, order, canonical.files)
    requires HistoryOf(base, cs, order, canonical.history)
    requires Changes(base, c) != {} && Untouched(base, cs, order, c)
    ensures Prepare(base, canonical, c, false) == Success(Merge(canonical.files, Scope(c), c.source))
  {
    var before, scope := canonical.files, Scope(c);
    InputsStand(base, cs, order, c, before);
    HistoryStands(base, cs, order, canonical.history, ReadPaths(base, before, c), scope);
    GuardsPass(base, canonical, c);
  }

  lemma GuardsPass(base: Tree, canonical: Canonical, c: Candidate)
    requires forall path | path in Scope(c) + ReadPaths(base, canonical.files, c) ::
               Get(canonical.files, path) == Get(base, path)
    requires !c.declared ==> canonical.files == base
    requires forall k | 0 <= k < |canonical.history| ::
               CommitAccepted(canonical.history[k], ReadPaths(base, canonical.files, c), Scope(c))
    requires Changes(base, c) != {}
    ensures Prepare(base, canonical, c, false) == Success(Merge(canonical.files, Scope(c), c.source))
  {
    var changed :| changed in Changes(base, c);
    MergeGet(canonical.files, Scope(c), c.source, changed);
  }

  /** One more candidate is accepted if and only if it changes something and no earlier one touches it. */
  lemma NextIsPreparedExactly(base: Tree, cs: seq<Candidate>, order: seq<nat>, c: Candidate, canonical: Canonical)
    requires Within(order, |cs|) && Combined(base, cs, order, canonical.files)
    requires HistoryOf(base, cs, order, canonical.history)
    ensures Prepare(base, canonical, c, false).Success? <==> Changes(base, c) != {} && Untouched(base, cs, order, c)
    ensures Prepare(base, canonical, c, false).Success? ==>
              Prepare(base, canonical, c, false).value == Merge(canonical.files, Scope(c), c.source)
  {
    if Changes(base, c) == {} {
      UnchangedIsRefused(base, canonical, c);
    } else if i :| i in order && Touches(base, cs[i], c) {
      TouchedIsRefused(base, canonical, cs[i], c);
    } else {
      UntouchedIsPrepared(base, cs, order, c, canonical);
    }
  }

  lemma CombinedStep(base: Tree, cs: seq<Candidate>, order: seq<nat>, next: nat, files: Tree)
    requires Within(order, |cs|) && next < |cs| && Combined(base, cs, order, files)
    requires Untouched(base, cs, order, cs[next])
    ensures Combined(base, cs, order + [next], Merge(files, Scope(cs[next]), cs[next].source))
  {
    var c := cs[next];
    var merged, longer := Merge(files, Scope(c), c.source), order + [next];
    forall path
      ensures Get(merged, path) == if path in Scope(c) then Get(c.source, path) else Get(files, path)
      ensures path in Scope(c) ==> Get(files, path) == Get(base, path) && forall i | i in order ::
              path !in Changes(base, cs[i])
    {
      MergeGet(files, Scope(c), c.source, path);
      if path in Scope(c) {
        UntouchedInputs(base, cs, order, c, files, path);
      }
    }
    assert next in longer && forall i | i in order :: i in longer;
    forall i, path | i in longer && path in Changes(base, cs[i])
      ensures Get(merged, path) == Get(cs[i].source, path)
    {
      assert i == next || i in order;
    }
  }

  lemma CommitOfSibling(base: Tree, cs: seq<Candidate>, order: seq<nat>, c: Candidate, canonical: Canonical)
    requires Within(order, |cs|) && Combined(base, cs, order, canonical.files)
    requires Untouched(base, cs, order, c)
    requires Prepare(base, canonical, c, false) == Success(Merge(canonical.files, Scope(c), c.source))
    ensures Integrate(base, canonical, c) == Success(Canonical(Merge(canonical.files, Scope(c), c.source),
              canonical.history + [Commit(Changes(base, c), Some(Scope(c)))]))
  {
    var before, merged := canonical.files, Merge(canonical.files, Scope(c), c.source);
    var changed := set path | path in before.Keys + merged.Keys && Get(before, path) != Get(merged, path);
    forall path
      ensures path in changed <==> path in Changes(base, c)
    {
      MergeGet(before, Scope(c), c.source, path);
      if path in Scope(c) {
        UntouchedInputs(base, cs, order, c, before, path);
      }
    }
    assert changed == Changes(base, c);
  }

  /** Which orders are accepted, exactly, for any candidates of one base: those in which each changes something
      and none is touched by one before it. The tree then holds every candidate's changes, and the base
      elsewhere, and each commit holds one candidate's changes. */
  lemma {:induction false} OrderIntegratesExactly(base: Tree, cs: seq<Candidate>, order: seq<nat>)
    requires Within(order, |cs|)
    ensures IntegrateAll(base, cs, order).Success? <==> Compatible(base, cs, order)
    ensures var all := IntegrateAll(base, cs, order);
            all.Success? ==>
              Combined(base, cs, order, all.value.files) && HistoryOf(base, cs, order, all.value.history)
  {
    if order != [] {
      var front, next := order[..|order| - 1], order[|order| - 1];
      assert order == front + [next];
      OrderIntegratesExactly(base, cs, front);
      CompatibleSnoc(base, cs, front, next);
      if IntegrateAll(base, cs, front).Success? {
        var canonical := IntegrateAll(base, cs, front).value;
        NextIsPreparedExactly(base, cs, front, cs[next], canonical);
        if Changes(base, cs[next]) != {} && Untouched(base, cs, front, cs[next]) {
          CombinedStep(base, cs, front, next, canonical.files);
          CommitOfSibling(base, cs, front, cs[next], canonical);
        }
      }
    }
  }

  lemma CompatibleSnoc(base: Tree, cs: seq<Candidate>, front: seq<nat>, next: nat)
    requires Within(front, |cs|) && next < |cs|
    ensures Compatible(base, cs, front + [next]) <==>
            Compatible(base, cs, front) && Changes(base, cs[next]) != {} && Untouched(base, cs, front, cs[next])
  {
    var order := front + [next];
    if Compatible(base, cs, order) {
      forall k, l | 0 <= k < l < |front|
        ensures !Touches(base, cs[front[k]], cs[front[l]])
      {
        assert !Touches(base, cs[order[k]], cs[order[l]]);
      }
      forall k | 0 <= k < |front|
        ensures Changes(base, cs[front[k]]) != {} && !Touches(base, cs[front[k]], cs[next])
      {
        assert Changes(base, cs[order[k]]) != {} && !Touches(base, cs[order[k]], cs[order[|front|]]);
      }
      assert Changes(base, cs[order[|front|]]) != {};
    }
  }

  /** Integration is order-independent: any two accepted orders of the same candidates give the same tree. */
  lemma OrderDoesNotMatter(base: Tree, cs: seq<Candidate>, one: seq<nat>, other: seq<nat>)
    requires Within(one, |cs|) && Within(other, |cs|) && forall i :: i in one <==> i in other
    requires IntegrateAll(base, cs, one).Success? && IntegrateAll(base, cs, other).Success?
    ensures IntegrateAll(base, cs, one).value.files == IntegrateAll(base, cs, other).value.files
  {
    OrderIntegratesExactly(base, cs, one);
    OrderIntegratesExactly(base, cs, other);
    var a, b := IntegrateAll(base, cs, one).value.files, IntegrateAll(base, cs, other).value.files;
    forall path
      ensures Get(a, path) == Get(b, path)
    {
      if i :| i in one && path in Changes(base, cs[i]) {
        assert i in other;
      }
    }
    SameGetsSameTree(a, b);
  }

  /** Every order of all or some of the siblings is accepted if and only if each changes something and none
      touches another. */
  lemma EveryOrderIntegratesExactly(base: Tree, cs: seq<Candidate>)
    ensures (forall order | Distinct(order) && Within(order, |cs|) :: IntegrateAll(base, cs, order).Success?)
            <==> Independent(base, cs)
  {
    forall order | Distinct(order) && Within(order, |cs|) && Independent(base, cs)
      ensures IntegrateAll(base, cs, order).Success?
    {
      OrderIntegratesExactly(base, cs, order);
    }
    if forall order | Distinct(order) && Within(order, |cs|) :: IntegrateAll(base, cs, order).Success? {
      forall i | 0 <= i < |cs|
        ensures Changes(base, cs[i]) != {}
      {
        assert Distinct([i]) && Within([i], |cs|);
        OrderIntegratesExactly(base, cs, [i]);
        assert [i][0] == i;
      }
      forall i, j | 0 <= i < |cs| && 0 <= j < |cs| && i != j
        ensures !Touches(base, cs[i], cs[j])
      {
        assert Distinct([i, j]) && Within([i, j], |cs|);
        OrderIntegratesExactly(base, cs, [i, j]);
        assert [i, j][0] == i && [i, j][1] == j;
      }
    }
  }

  /** The tree then holds every sibling's whole scope. */
  lemma IndependentScopesHold(base: Tree, cs: seq<Candidate>, order: seq<nat>, i: nat, path: Path)
    requires Independent(base, cs) && Within(order, |cs|) && IntegrateAll(base, cs, order).Success?
    requires i in order && path in Scope(cs[i])
    ensures Get(IntegrateAll(base, cs, order).value.files, path) == Get(cs[i].source, path)
  {
    OrderIntegratesExactly(base, cs, order);
    if path !in Changes(base, cs[i]) {
      forall j | j in order
        ensures path !in Changes(base, cs[j])
      {
        assert j != i ==> !Touches(base, cs[j], cs[i]);
      }
    }
  }

  // ----- Siblings that avoid each other's read sets of the base -----

  /** Siblings as candidates keep them, whose scopes avoid each other's scopes and what each other reads of the base. */
  ghost predicate Disjoint(base: Tree, cs: seq<Candidate>) {
    && (forall i | 0 <= i < |cs| :: Candidacy(base, cs[i]) && Changes(base, cs[i]) != {})
    && (forall i, j | 0 <= i < |cs| && 0 <= j < |cs| && i != j ::
          Scope(cs[i]) !! Scope(cs[j]) && Scope(cs[i]) !! ReadPaths(base, base, cs[j]))
  }

  /** A path the base does not have is created, and is an input of the other by pattern or for want of a declaration. */
  predicate CreatesInput(base: Tree, a: Candidate, b: Candidate) {
    exists path | path in Scope(a) :: path in a.source && path !in base && (b.declared ==> b.required(path))
  }

  lemma TouchingIsCreating(base: Tree, a: Candidate, b: Candidate)
    requires Candidacy(base, b) && Scope(a) !! Scope(b) && Scope(a) !! ReadPaths(base, base, b)
    ensures Touches(base, a, b) <==> CreatesInput(base, a, b)
  {
    if Touches(base, a, b) {
      var path :| path in Changes(base, a) && (path in Scope(b) || EffectivelyReads(b, path));
      assert path !in Scope(b) && path !in ReadPaths(base, base, b);
      assert path !in base && path in a.source;
    }
    if CreatesInput(base, a, b) {
      var path :| path in Scope(a) && path in a.source && path !in base && (b.declared ==> b.required(path));
      assert path in Changes(base, a) && EffectivelyReads(b, path);
    }
  }

  /** For siblings that avoid each other's read sets of the base, order does not matter exactly when none creates
      an input of another. */
  lemma DisjointOrdersExactly(base: Tree, cs: seq<Candidate>)
    requires Disjoint(base, cs)
    ensures (forall order | Distinct(order) && Within(order, |cs|) :: IntegrateAll(base, cs, order).Success?)
            <==> forall i, j | 0 <= i < |cs| && 0 <= j < |cs| && i != j :: !CreatesInput(base, cs[i], cs[j])
  {
    EveryOrderIntegratesExactly(base, cs);
    forall i, j | 0 <= i < |cs| && 0 <= j < |cs| && i != j
      ensures Touches(base, cs[i], cs[j]) <==> CreatesInput(base, cs[i], cs[j])
    {
      TouchingIsCreating(base, cs[i], cs[j]);
    }
  }

  // ----- A created input: one order is accepted, the other is not -----

  const MANIFEST: Path := "new/Cargo.toml"
  const BASE: Tree := map["a" := "1"]

  /** A sibling that creates a required input. */
  function Author(): Candidate {
    Candidate([MANIFEST], {}, true, path => path == MANIFEST, BASE[MANIFEST := "2"])
  }

  /** A sibling that reads nothing of the base but the required inputs, of which the base has none. */
  function Reader(): Candidate {
    Candidate(["a"], {}, true, path => path == MANIFEST, map["a" := "3"])
  }

  lemma AuthorFirst()
    ensures Integrate(BASE, Canonical(BASE, []), Author()).Success?
    ensures forall canonical | Integrate(BASE, Canonical(BASE, []), Author()) == Success(canonical) ::
              Integrate(BASE, canonical, Reader()) == Failure(InputChanged)
  {
    var after := Merge(BASE, Scope(Author()), Author().source);
    MergeGet(BASE, Scope(Author()), Author().source, MANIFEST);
    assert MANIFEST in Author().scope;
    assert MANIFEST !in BASE && MANIFEST in after;
    assert MANIFEST in ReadPaths(BASE, after, Reader());
    assert Get(after, MANIFEST) != Get(BASE, MANIFEST);
  }

  lemma ReaderIntegrates()
    ensures Integrate(BASE, Canonical(BASE, []), Reader())
            == Success(Canonical(map["a" := "3"], [Commit({"a"}, Some({"a"}))]))
  {
    var after := Merge(BASE, Scope(Reader()), Reader().source);
    assert Scope(Reader()) == {"a"};
    MergeGet(BASE, Scope(Reader()), Reader().source, "a");
    assert "a" in BASE && BASE["a"] == "1" && after == map["a" := "3"];
    var canonical := Integrate(BASE, Canonical(BASE, []), Reader()).value;
    assert canonical.history[0].paths == {"a"};
    assert canonical.history == [Commit({"a"}, Some({"a"}))] && canonical.files == after;
  }

  lemma AuthorAfterReader()
    ensures Integrate(BASE, Canonical(map["a" := "3"], [Commit({"a"}, Some({"a"}))]), Author()).Success?
  {
    var after: Tree := map["a" := "3"];
    assert Scope(Author()) == {MANIFEST} && MANIFEST !in after;
    MergeGet(after, Scope(Author()), Author().source, MANIFEST);
    assert Get(Merge(after, Scope(Author()), Author().source), MANIFEST) == Some("2");
  }

  lemma ReaderFirst()
    ensures Integrate(BASE, Canonical(BASE, []), Reader()).Success?
    ensures forall canonical | Integrate(BASE, Canonical(BASE, []), Reader()) == Success(canonical) ::
              Integrate(BASE, canonical, Author()).Success?
  {
    ReaderIntegrates();
    AuthorAfterReader();
  }

  /** Scopes and base read sets are disjoint both ways, yet only one of the two orders is accepted. */
  lemma CreatedInputBreaksOrder()
    ensures Scope(Author()) !! Scope(Reader())
    ensures Scope(Author()) !! ReadPaths(BASE, BASE, Reader()) && Scope(Reader()) !! ReadPaths(BASE, BASE, Author())
    ensures IntegrateAll(BASE, [Author(), Reader()], [1, 0]).Success?
    ensures IntegrateAll(BASE, [Author(), Reader()], [0, 1]) == Failure(InputChanged)
  {
    AuthorFirst();
    ReaderFirst();
    var cs := [Author(), Reader()];
    assert [1, 0][..1] == [1] && [0, 1][..1] == [0] && [1][..0] == [] && [0][..0] == [];
    assert IntegrateAll(BASE, cs, [0]) == Integrate(BASE, Canonical(BASE, []), Author());
    assert IntegrateAll(BASE, cs, [1]) == Integrate(BASE, Canonical(BASE, []), Reader());
    assert Scope(Reader()) == {"a"} && Scope(Author()) == {MANIFEST};
    assert MANIFEST !in BASE;
  }
}
