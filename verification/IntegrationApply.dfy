/** The resumable apply loop of an integration: files are replaced one at a time, a crash may fall
    between any two, and running it again must finish the same tree. */
module IntegrationApply {
  import opened Basics
  import opened Integration

  /** The durable evidence of a prepared integration. */
  datatype Evidence = Evidence(
    scope: seq<Path>,
    sourceBefore: Tree,
    sourceAfter: Tree,
    candidateSource: Tree,
    outside: Tree)

  /** What preparation records. */
  ghost predicate Recorded(e: Evidence) {
    && e.sourceAfter == Merge(e.sourceBefore, Elements(e.scope), e.candidateSource)
    && e.outside == Outside(e.sourceBefore, Elements(e.scope))
  }

  predicate OutsideIntact(e: Evidence, files: Tree) {
    Outside(files, Elements(e.scope)) == e.outside
  }

  predicate ScopeBeforeOrAfter(e: Evidence, files: Tree) {
    forall i | 0 <= i < |e.scope| ::
      Get(files, e.scope[i]) == Get(e.sourceBefore, e.scope[i])
        || Get(files, e.scope[i]) == Get(e.sourceAfter, e.scope[i])
  }

  /** Every scoped file holds its before or after value and nothing else has changed. */
  predicate Resumable(e: Evidence, files: Tree) {
    OutsideIntact(e, files) && ScopeBeforeOrAfter(e, files)
  }

  /** Replace or remove one scoped file with the candidate's bytes. */
  function WriteOne(e: Evidence, files: Tree, path: Path): Tree {
    if path !in e.sourceAfter then files - {path}
    else if path in e.candidateSource then files[path := e.candidateSource[path]]
    else files
  }

  /** The tree after the first `count` replacements. */
  function Written(e: Evidence, files: Tree, count: nat): Tree
    requires count <= |e.scope|
  {
    if count == 0 then files else WriteOne(e, Written(e, files, count - 1), e.scope[count - 1])
  }

  lemma WriteOneGet(e: Evidence, files: Tree, path: Path, other: Path)
    requires Recorded(e) && path in e.scope
    ensures Get(WriteOne(e, files, path), other) == if other == path then Get(e.sourceAfter, path)
            else Get(files, other)
  {
    MergeGet(e.sourceBefore, Elements(e.scope), e.candidateSource, path);
  }

  lemma {:induction false} WrittenGet(e: Evidence, files: Tree, count: nat, path: Path)
    requires Recorded(e) && count <= |e.scope|
    ensures Get(Written(e, files, count), path) ==
            if path in e.scope[..count] then Get(e.sourceAfter, path) else Get(files, path)
  {
    if count > 0 {
      WrittenGet(e, files, count - 1, path);
      assert e.scope[..count] == e.scope[..count - 1] + [e.scope[count - 1]];
      WriteOneGet(e, Written(e, files, count - 1), e.scope[count - 1], path);
    }
  }

  /** From any crash point every scoped file is before or after, and nothing else moved. */
  lemma CrashStaysResumable(e: Evidence, files: Tree, count: nat)
    requires Recorded(e) && Resumable(e, files) && count <= |e.scope|
    ensures Resumable(e, Written(e, files, count))
  {
    var written := Written(e, files, count);
    forall path
      ensures path !in Elements(e.scope) ==> Get(written, path) == Get(files, path)
    {
      WrittenGet(e, files, count, path);
      assert path in e.scope[..count] ==> path in e.scope;
    }
    SameOutside(written, files, Elements(e.scope));
    forall i | 0 <= i < |e.scope|
      ensures Get(written, e.scope[i]) == Get(e.sourceBefore, e.scope[i])
           || Get(written, e.scope[i]) == Get(e.sourceAfter, e.scope[i])
    {
      WrittenGet(e, files, count, e.scope[i]);
    }
  }

  lemma SameOutside(a: Tree, b: Tree, scope: set<Path>)
    requires forall path :: path !in scope ==> Get(a, path) == Get(b, path)
    ensures Outside(a, scope) == Outside(b, scope)
  {
    forall path
      ensures Get(Outside(a, scope), path) == Get(Outside(b, scope), path)
    {
      if path !in scope {
        assert Get(a, path) == Get(b, path);
      }
    }
    SameGetsSameTree(Outside(a, scope), Outside(b, scope));
  }

  /** A full pass from any resumable tree ends exactly at the recorded result. */
  lemma FullPassEndsAtAfter(e: Evidence, files: Tree)
    requires Recorded(e) && Resumable(e, files)
    ensures Written(e, files, |e.scope|) == e.sourceAfter
  {
    forall path
      ensures Get(Written(e, files, |e.scope|), path) == Get(e.sourceAfter, path)
    {
      WrittenGet(e, files, |e.scope|, path);
      assert e.scope[..|e.scope|] == e.scope;
      if path !in e.scope {
        OutsideGet(files, e.sourceBefore, Elements(e.scope), path);
        MergeGet(e.sourceBefore, Elements(e.scope), e.candidateSource, path);
      }
    }
    SameGetsSameTree(Written(e, files, |e.scope|), e.sourceAfter);
  }

  /** The tree before integration and the tree after it are both resumable. */
  lemma EndsAreResumable(e: Evidence)
    requires Recorded(e)
    ensures Resumable(e, e.sourceBefore) && Resumable(e, e.sourceAfter)
  {
    forall path
      ensures path !in Elements(e.scope) ==> Get(e.sourceAfter, path) == Get(e.sourceBefore, path)
    {
      MergeGet(e.sourceBefore, Elements(e.scope), e.candidateSource, path);
    }
    SameOutside(e.sourceAfter, e.sourceBefore, Elements(e.scope));
  }

  /** The trees reached by attempts that crashed after the given numbers of replacements. */
  function AfterCrashes(e: Evidence, files: Tree, crashes: seq<nat>): Tree
    requires forall k | 0 <= k < |crashes| :: crashes[k] <= |e.scope|
  {
    if crashes == [] then files
    else Written(e, AfterCrashes(e, files, crashes[..|crashes| - 1]), crashes[|crashes| - 1])
  }

  /** Crash-resume: after any number of crashed attempts the input checks still pass and one more
      complete attempt ends exactly at the recorded result. */
  lemma {:induction false} ResumeConverges(e: Evidence, crashes: seq<nat>)
    requires Recorded(e) && forall k | 0 <= k < |crashes| :: crashes[k] <= |e.scope|
    ensures var files := AfterCrashes(e, e.sourceBefore, crashes);
            Resumable(e, files) && Written(e, files, |e.scope|) == e.sourceAfter
  {
    if crashes == [] {
      EndsAreResumable(e);
    } else {
      var front := crashes[..|crashes| - 1];
      ResumeConverges(e, front);
      CrashStaysResumable(e, AfterCrashes(e, e.sourceBefore, front), crashes[|crashes| - 1]);
    }
    FullPassEndsAtAfter(e, AfterCrashes(e, e.sourceBefore, crashes));
  }

  /** The loop over the scope that refuses any value other than before or after. */
  method ScopeResumable(e: Evidence, files: Tree) returns (resumable: bool)
    ensures resumable == ScopeBeforeOrAfter(e, files)
  {
    for i := 0 to |e.scope|
      invariant forall k | 0 <= k < i ::
                  Get(files, e.scope[k]) == Get(e.sourceBefore, e.scope[k])
                    || Get(files, e.scope[k]) == Get(e.sourceAfter, e.scope[k])
    {
      var path := e.scope[i];
      if Get(files, path) != Get(e.sourceBefore, path) && Get(files, path) != Get(e.sourceAfter, path) {
        return false;
      }
    }
    return true;
  }
}
