/** What a stage request rests on: every digest reachable through the results it cites. */
module Prerequisites {
  import opened Integration
  import opened Records
  import opened Workflows

  /** The digest reaches the other through the prerequisites of recorded results. */
  predicate Cites(results: seq<StageResult>, from: Digest, to: Digest)
    decreases from
  {
    || from == to
    || (from.OfResult? && from.result in results
        && exists i | 0 <= i < |from.result.request.prerequisites| ::
           Cites(results, from.result.request.prerequisites[i], to))
  }

  predicate RestsOn(results: seq<StageResult>, request: Request, digest: Digest) {
    exists i | 0 <= i < |request.prerequisites| :: Cites(results, request.prerequisites[i], digest)
  }

  /** Every recorded check the request rests on has unchanged environment and logs. */
  predicate PrerequisitesIntact(run: Run, request: Request, environment: string, logs: map<Log, string>) {
    forall i | 0 <= i < |run.checks| && RestsOn(run.workflow.results, request, OfCheck(run.checks[i])) ::
      run.checks[i].environment == environment && LogsIntact(run.task.id, run.checks[i], logs)
  }

  /** Following one recorded result from a member never leaves the set. */
  ghost predicate Closed(results: seq<StageResult>, digests: set<Digest>) {
    forall result | result in results && OfResult(result) in digests ::
      Elements(result.request.prerequisites) <= digests
  }

  lemma {:induction false} CitesStaysInside(results: seq<StageResult>, digests: set<Digest>, from: Digest, to: Digest)
    requires Closed(results, digests) && from in digests && Cites(results, from, to)
    ensures to in digests
    decreases from
  {
    if from != to {
      var i :| 0 <= i < |from.result.request.prerequisites| && Cites(results, from.result.request.prerequisites[i], to);
      assert from.result.request.prerequisites[i] in Elements(from.result.request.prerequisites);
      CitesStaysInside(results, digests, from.result.request.prerequisites[i], to);
    }
  }

  lemma {:induction false} CitesExtends(results: seq<StageResult>, from: Digest, result: StageResult, to: Digest)
    requires Cites(results, from, OfResult(result)) && result in results && to in result.request.prerequisites
    ensures Cites(results, from, to)
    decreases from
  {
    if from == OfResult(result) {
      var i :| 0 <= i < |result.request.prerequisites| && result.request.prerequisites[i] == to;
      assert Cites(results, from.result.request.prerequisites[i], to);
    } else {
      var i :| 0 <= i < |from.result.request.prerequisites|
               && Cites(results, from.result.request.prerequisites[i], OfResult(result));
      CitesExtends(results, from.result.request.prerequisites[i], result, to);
    }
  }

  /** What a request rests on is the least closed set that holds its own prerequisites. */
  lemma RestsOnIsLeastClosed(results: seq<StageResult>, request: Request, digests: set<Digest>)
    requires forall digest :: digest in digests <==> RestsOn(results, request, digest)
    ensures Elements(request.prerequisites) <= digests && Closed(results, digests)
    ensures forall other | Elements(request.prerequisites) <= other && Closed(results, other) :: digests <= other
  {
    forall digest | digest in request.prerequisites
      ensures digest in digests
    {
      var i :| 0 <= i < |request.prerequisites| && request.prerequisites[i] == digest;
      assert Cites(results, request.prerequisites[i], digest);
    }
    forall result, to | result in results && OfResult(result) in digests && to in result.request.prerequisites
      ensures to in digests
    {
      var i :| 0 <= i < |request.prerequisites| && Cites(results, request.prerequisites[i], OfResult(result));
      CitesExtends(results, request.prerequisites[i], result, to);
    }
    forall other, digest | Elements(request.prerequisites) <= other && Closed(results, other) && digest in digests
      ensures digest in other
    {
      var i :| 0 <= i < |request.prerequisites| && Cites(results, request.prerequisites[i], digest);
      assert request.prerequisites[i] in Elements(request.prerequisites);
      CitesStaysInside(results, other, request.prerequisites[i], digest);
    }
  }

  // ----- The growing-set loop -----

  ghost function Universe(results: seq<StageResult>, request: Request): set<Digest> {
    Elements(request.prerequisites) + AllPrerequisites(results)
  }

  ghost function AllPrerequisites(results: seq<StageResult>): set<Digest> {
    set result, digest | result in results && digest in result.request.prerequisites :: digest
  }

  ghost predicate NoDuplicates<T>(s: seq<T>) {
    forall i, j | 0 <= i < j < |s| :: s[i] != s[j]
  }

  lemma {:induction false} DistinctCount<T>(s: seq<T>, all: set<T>)
    requires NoDuplicates(s) && Elements(s) <= all
    ensures |s| <= |all|
  {
    if s != [] {
      var front, last := s[..|s| - 1], s[|s| - 1];
      assert last in Elements(s) && last !in front;
      assert Elements(front) <= all - {last};
      DistinctCount(front, all - {last});
    }
  }

  /** Insert into an insertion-ordered set. */
  function Insert<T(==)>(s: seq<T>, x: T): (inserted: seq<T>)
    ensures NoDuplicates(s) ==> NoDuplicates(inserted)
    ensures Elements(inserted) == Elements(s) + {x}
    ensures s <= inserted
  {
    if x in s then assert Elements(s) == Elements(s) + {x}; s
    else assert Elements(s + [x]) == Elements(s) + {x}; s + [x]
  }

  method InsertAll(references: seq<Digest>, digests: seq<Digest>) returns (grown: seq<Digest>)
    requires NoDuplicates(references)
    ensures NoDuplicates(grown) && references <= grown
    ensures Elements(grown) == Elements(references) + Elements(digests)
  {
    grown := references;
    for i := 0 to |digests|
      invariant NoDuplicates(grown) && references <= grown
      invariant Elements(grown) == Elements(references) + Elements(digests[..i])
    {
      grown := Insert(grown, digests[i]);
      assert Elements(digests[..i + 1]) == Elements(digests[..i]) + {digests[i]};
    }
    assert digests[..|digests|] == digests;
  }

  /** Members visited so far have all their prerequisites in the set. */
  ghost predicate ClosedTo(results: seq<StageResult>, references: seq<Digest>, count: nat)
    requires count <= |references|
  {
    forall k | 0 <= k < count && references[k].OfResult? && references[k].result in results ::
      Elements(references[k].result.request.prerequisites) <= Elements(references)
  }

  ghost predicate AllRestOn(results: seq<StageResult>, request: Request, references: seq<Digest>) {
    forall digest | digest in references :: RestsOn(results, request, digest)
  }

  /** The loop visits a set that grows while it is visited; it ends, with exactly the reachable digests. */
  method References(results: seq<StageResult>, request: Request) returns (references: set<Digest>)
    ensures forall digest :: digest in references <==> RestsOn(results, request, digest)
  {
    var order := InsertAll([], request.prerequisites);
    forall digest | digest in order
      ensures RestsOn(results, request, digest)
    {
      assert digest in Elements(order);
      var k :| 0 <= k < |request.prerequisites| && request.prerequisites[k] == digest;
      assert Cites(results, request.prerequisites[k], digest);
    }
    var i := 0;
    while i < |order|
      invariant i <= |order| && NoDuplicates(order)
      invariant Elements(request.prerequisites) <= Elements(order) <= Universe(results, request)
      invariant ClosedTo(results, order, i) && AllRestOn(results, request, order)
      decreases |Universe(results, request)| - i
    {
      DistinctCount(order, Universe(results, request));
      if order[i].OfResult? && order[i].result in results {
        ghost var before := order;
        order := InsertAll(order, order[i].result.request.prerequisites);
        GrowthRests(results, request, before, i, order);
      }
      i := i + 1;
    }
    references := Elements(order);
    Complete(results, request, order);
  }

  lemma GrowthRests(results: seq<StageResult>, request: Request, before: seq<Digest>, i: nat, after: seq<Digest>)
    requires i < |before| && before[i].OfResult? && before[i].result in results
    requires AllRestOn(results, request, before) && ClosedTo(results, before, i) && before <= after
    requires Elements(after) == Elements(before) + Elements(before[i].result.request.prerequisites)
    ensures AllRestOn(results, request, after) && ClosedTo(results, after, i + 1)
    ensures Elements(before[i].result.request.prerequisites) <= AllPrerequisites(results)
  {
    var visited := before[i];
    assert visited in before;
    forall digest | digest in after
      ensures RestsOn(results, request, digest)
    {
      assert digest in Elements(after);
      if digest !in before {
        var k :| 0 <= k < |request.prerequisites| && Cites(results, request.prerequisites[k], visited);
        CitesExtends(results, request.prerequisites[k], visited.result, digest);
      }
    }
  }

  lemma Complete(results: seq<StageResult>, request: Request, order: seq<Digest>)
    requires Elements(request.prerequisites) <= Elements(order)
    requires ClosedTo(results, order, |order|) && AllRestOn(results, request, order)
    ensures forall digest :: digest in Elements(order) <==> RestsOn(results, request, digest)
  {
    forall result | result in results && OfResult(result) in Elements(order)
      ensures Elements(result.request.prerequisites) <= Elements(order)
    {
      var k :| 0 <= k < |order| && order[k] == OfResult(result);
      assert order[k].OfResult?;
    }
    forall digest | RestsOn(results, request, digest)
      ensures digest in Elements(order)
    {
      var k :| 0 <= k < |request.prerequisites| && Cites(results, request.prerequisites[k], digest);
      assert request.prerequisites[k] in Elements(request.prerequisites);
      CitesStaysInside(results, Elements(order), request.prerequisites[k], digest);
    }
  }

  /** `assertPrerequisites`: true exactly when every check the request rests on is intact. */
  method AssertPrerequisites(run: Run, request: Request, environment: string, logs: map<Log, string>)
    returns (intact: bool)
    ensures intact == PrerequisitesIntact(run, request, environment, logs)
  {
    var references := References(run.workflow.results, request);
    for i := 0 to |run.checks|
      invariant forall k | 0 <= k < i && RestsOn(run.workflow.results, request, OfCheck(run.checks[k])) ::
                  run.checks[k].environment == environment && LogsIntact(run.task.id, run.checks[k], logs)
    {
      var check := run.checks[i];
      if OfCheck(check) in references {
        if check.environment != environment || !LogsIntact(run.task.id, check, logs) {
          return false;
        }
      }
    }
    return true;
  }
}
