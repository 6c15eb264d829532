/** A cohort of outcomes: admitted together, settled one by one, its reservation file kept in step. */
module DeliveryPool {
  import opened Basics
  import opened Integration
  import opened Reservations
  import opened Lifecycle
  import opened LifecycleCustody
  import opened LifecycleReturns
  import Paths

  // ----- Admission -----

  /** Each task against the tasks before it: ids, mutation paths and resources. */
  method TasksApart(tasks: seq<Reservation>) returns (apart: bool)
    ensures apart <==> forall i, j | 0 <= i < j < |tasks| :: !Conflicts(tasks[j], tasks[i])
  {
    for j := 0 to |tasks|
      invariant forall i, k | 0 <= i < k < j :: !Conflicts(tasks[k], tasks[i])
    {
      for i := 0 to j
        invariant forall k | 0 <= k < i :: !Conflicts(tasks[j], tasks[k])
      {
        if Conflicts(tasks[j], tasks[i]) {
          return false;
        }
      }
    }
    return true;
  }

  predicate ClearOfRow(row: Reservation, tasks: seq<Reservation>) {
    forall i | 0 <= i < |tasks| :: !Conflicts(row, tasks[i])
  }

  /** Each reservation in force against each incoming task. */
  method ClearOfActive(active: set<Reservation>, tasks: seq<Reservation>) returns (clear: bool)
    ensures clear <==> forall row | row in active :: ClearOfRow(row, tasks)
  {
    var rest := active;
    while rest != {}
      invariant rest <= active
      invariant forall row | row in active && row !in rest :: ClearOfRow(row, tasks)
      decreases |rest|
    {
      var row :| row in rest;
      for i := 0 to |tasks|
        invariant forall k | 0 <= k < i :: !Conflicts(row, tasks[k])
      {
        if Conflicts(row, tasks[i]) {
          assert !ClearOfRow(row, tasks);
          return false;
        }
      }
      rest := rest - {row};
    }
    return true;
  }

  /** Admission under the canonical operation lock. */
  method Admit(canonical: State, tasks: seq<Reservation>) returns (admitted: bool)
    ensures admitted == PoolAdmitted(canonical, tasks)
  {
    if canonical.kind != Main {
      return false;
    }
    var apart := TasksApart(tasks);
    if !apart || !CandidatesAdmitted(canonical, tasks) {
      return false;
    }
    admitted := ClearOfActive(Active(canonical.pools, canonical.busy), tasks);
    assert admitted <==> forall row, i | row in Active(canonical.pools, canonical.busy) && 0 <= i < |tasks| ::
           !Conflicts(row, tasks[i]);
  }

  // ----- Settlement -----

  ghost predicate DistinctIds(tasks: seq<Reservation>) {
    forall i, j | 0 <= i < j < |tasks| :: tasks[i].id != tasks[j].id
  }

  lemma AdmittedIdsAreDistinct(canonical: State, tasks: seq<Reservation>)
    requires PoolAdmitted(canonical, tasks)
    ensures DistinctIds(tasks)
  {
    forall i, j | 0 <= i < j < |tasks|
      ensures tasks[i].id != tasks[j].id
    {
      assert !Conflicts(tasks[j], tasks[i]);
    }
  }

  function RowOf(task: Reservation, retained: map<string, string>): Reservation {
    if task.id in retained then task.(retained := Some(retained[task.id])) else task
  }

  /** The reservation file: unsettled tasks as they are, retained ones with their candidate's directory. */
  function Rows(tasks: seq<Reservation>, settled: set<string>, retained: map<string, string>): set<Reservation> {
    set i | 0 <= i < |tasks| && (tasks[i].id !in settled || tasks[i].id in retained) ::
      RowOf(tasks[i], retained)
  }

  class Pool {
    const tasks: seq<Reservation>
    var evidence: map<string, string>
    var settled: set<string>
    var retained: map<string, string>
    var file: set<Reservation>

    ghost predicate Valid() reads this {
      && DistinctIds(tasks) && Fresh(tasks) && retained.Keys <= settled
      && (forall id | id in retained :: id in evidence && evidence[id] == retained[id])
      && file == Rows(tasks, settled, retained)
    }

    constructor (tasks: seq<Reservation>)
      requires DistinctIds(tasks) && Fresh(tasks)
      ensures Valid() && this.tasks == tasks && file == Elements(tasks) && settled == {} && evidence == map[]
    {
      this.tasks, evidence, settled, retained := tasks, map[], {}, map[];
      file := Elements(tasks);
      new;
      assert Rows(tasks, settled, retained) == Elements(tasks);
    }

    /** A task names its candidate once. */
    method Record(id: string, directory: string) returns (recorded: bool)
      requires Valid()
      modifies this`evidence
      ensures Valid() && recorded == (id !in old(evidence))
      ensures evidence == if recorded then old(evidence)[id := directory] else old(evidence)
    {
      recorded := id !in evidence;
      if recorded {
        evidence := evidence[id := directory];
      }
    }

    /** Settling rewrites the file: the row is dropped, or kept while its candidate may still have an operation. */
    method Settle(id: string, busy: set<string>)
      requires Valid() && id !in settled
      modifies this`settled, this`retained, this`file
      ensures Valid() && settled == old(settled) + {id}
      ensures retained == if id in evidence && evidence[id] in busy then old(retained)[id := evidence[id]]
                          else old(retained)
      ensures file == SettleRow(old(file), id, if id in evidence && evidence[id] in busy then Some(evidence[id])
                                else None)
    {
      ghost var was, candidate := retained, if id in evidence && evidence[id] in busy then Some(evidence[id]) else None;
      if id in evidence && evidence[id] in busy {
        retained := retained[id := evidence[id]];
      }
      settled := settled + {id};
      SettleRows(tasks, settled - {id}, was, id, candidate);
      file := Rows(tasks, settled, retained);
    }

    /** The end of the cohort: every task not yet settled settles, `busy(i)` being the candidates with an operation
        when task `i` does. What is left in the file is exactly the tasks whose candidate had one as they settled. */
    method Drain(busy: nat -> set<string>)
      requires Valid()
      modifies this`settled, this`retained, this`file
      ensures Valid() && settled == old(settled) + TaskIds(tasks)
      ensures file == set i | 0 <= i < |tasks| && Keeps(i, busy, old(settled), old(retained)) ::
                        tasks[i].(retained := Some(evidence[tasks[i].id]))
    {
      for i := 0 to |tasks|
        invariant Valid() && settled == old(settled) + TaskIds(tasks[..i])
        invariant forall k | 0 <= k < |tasks| ::
                    tasks[k].id in retained <==> if k < i then Keeps(k, busy, old(settled), old(retained))
                                                 else tasks[k].id in old(retained)
      {
        assert tasks[..i + 1] == tasks[..i] + [tasks[i]];
        if tasks[i].id !in settled {
          Settle(tasks[i].id, busy(i));
        } else {
          EarlierIdsDiffer(tasks, i);
        }
      }
      assert tasks[..|tasks|] == tasks;
      DrainedRows(tasks, settled, retained);
    }

    /** The candidate of task `i` had an operation when the task settled, before the drain or in it. */
    predicate Keeps(i: nat, busy: nat -> set<string>, settledBefore: set<string>, retainedBefore: map<string, string>)
      requires i < |tasks|
      reads this`evidence
    {
      if tasks[i].id in settledBefore then tasks[i].id in retainedBefore
      else tasks[i].id in evidence && evidence[tasks[i].id] in busy(i)
    }
  }

  /** A task that has not settled in its pool has no retained row there. */
  lemma UnsettledSettlesOnce(tasks: seq<Reservation>, settled: set<string>, retained: map<string, string>, id: string)
    requires Fresh(tasks) && retained.Keys <= settled && id !in settled
    ensures SettlesOnce([Rows(tasks, settled, retained)], 0, id)
  {
  }

  lemma SettleRows(tasks: seq<Reservation>, settled: set<string>, retained: map<string, string>, id: string,
                   candidate: Option<string>)
    requires Fresh(tasks) && id !in settled && retained.Keys <= settled
    ensures Rows(tasks, settled + {id}, if candidate.Some? then retained[id := candidate.value] else retained)
            == SettleRow(Rows(tasks, settled, retained), id, candidate)
  {
    var before, after := Rows(tasks, settled, retained), if candidate.Some? then retained[id := candidate.value]
      else retained;
    var left, right := Rows(tasks, settled + {id}, after), SettleRow(before, id, candidate);
    forall row | row in left
      ensures row in right
    {
      var i :| 0 <= i < |tasks| && (tasks[i].id !in settled + {id} || tasks[i].id in after)
               && row == RowOf(tasks[i], after);
      var origin := RowOf(tasks[i], retained);
      assert origin in before;
      assert row == if origin.id == id then origin.(retained := candidate) else origin;
    }
    forall row | row in right
      ensures row in left
    {
      var origin :| origin in before && (origin.id != id || candidate.Some?)
                  && row == if origin.id == id then origin.(retained := candidate) else origin;
      var i :| 0 <= i < |tasks| && (tasks[i].id !in settled || tasks[i].id in retained)
               && origin == RowOf(tasks[i], retained);
      assert tasks[i].id == origin.id;
    }
  }

  function TaskIds(tasks: seq<Reservation>): set<string> {
    set task | task in tasks :: task.id
  }

  lemma EarlierIdsDiffer(tasks: seq<Reservation>, i: nat)
    requires DistinctIds(tasks) && i < |tasks|
    ensures tasks[i].id !in TaskIds(tasks[..i])
  {
  }

  /** Once every task has settled the file holds the retained ones, with their candidate's directory, and no other. */
  lemma DrainedRows(tasks: seq<Reservation>, settled: set<string>, retained: map<string, string>)
    requires TaskIds(tasks) <= settled
    ensures Rows(tasks, settled, retained)
            == set i | 0 <= i < |tasks| && tasks[i].id in retained ::
                 tasks[i].(retained := Some(retained[tasks[i].id]))
  {
    assert forall i | 0 <= i < |tasks| :: tasks[i].id in TaskIds(tasks);
  }

  // ----- A retained reservation that returns -----

  const FIRST_TASK := Reservation("a", {"x"}, None, {}, true, None)
  const SECOND_TASK := Reservation("b", {"x"}, None, {}, true, None)
  const KEPT := FIRST_TASK.(retained := Some("candidate"))

  /** A cohort settles while its candidate has an operation; once that ends another cohort is admitted on the
      same path; then an operation starts again in the first candidate. */
  const RETURNING: seq<Happening> := [
    ChangeBusy({"candidate"}), AdmitPool([FIRST_TASK]), SettleOutcome(0, "a", Some("candidate")),
    ChangeBusy({}), AdmitPool([SECOND_TASK]), ChangeBusy({"candidate"})]

  lemma Happens(s: State, front: seq<Happening>, h: Happening)
    ensures RunOf(s, front + [h]) == After(RunOf(s, front), h)
    ensures EachOnce(s, front + [h]) <==> EachOnce(s, front) && Once(RunOf(s, front), h)
  {
    assert (front + [h])[..|front|] == front;
  }

  lemma FirstSettles(s: State)
    requires Initial(s) && s.kind == Main
    ensures RETURNING[..3] == [RETURNING[0]] + [RETURNING[1]] + [RETURNING[2]]
    ensures RunOf(s, RETURNING[..3]) == s.(pools := [{KEPT}], busy := {"candidate"}) && EachOnce(s, RETURNING[..3])
  {
    var none: seq<Happening> := [];
    Happens(s, none, RETURNING[0]);
    assert none + [RETURNING[0]] == [RETURNING[0]];
    Happens(s, [RETURNING[0]], RETURNING[1]);
    Happens(s, [RETURNING[0]] + [RETURNING[1]], RETURNING[2]);
    assert Elements([FIRST_TASK]) == {FIRST_TASK} && SettleRow({FIRST_TASK}, "a", Some("candidate")) == {KEPT};
    assert Active([], {"candidate"}) == {};
    assert [] + [{FIRST_TASK}] == [{FIRST_TASK}] && [{FIRST_TASK}][0 := {KEPT}] == [{KEPT}];
  }

  lemma SecondIsAdmitted(s: State)
    requires Initial(s) && s.kind == Main
    ensures RETURNING[..5] == RETURNING[..3] + [RETURNING[3]] + [RETURNING[4]]
    ensures RunOf(s, RETURNING[..5]) == s.(pools := [{KEPT}, {SECOND_TASK}], busy := {}) && EachOnce(s, RETURNING[..5])
  {
    FirstSettles(s);
    Happens(s, RETURNING[..3], RETURNING[3]);
    Happens(s, RETURNING[..3] + [RETURNING[3]], RETURNING[4]);
    assert Active([{KEPT}], {}) == {} && Elements([SECOND_TASK]) == {SECOND_TASK};
    assert [{KEPT}] + [{SECOND_TASK}] == [{KEPT}, {SECOND_TASK}];
  }

  /** From every initial canonical state this run of possible happenings, without a crash and with each outcome
      settled once, ends with two reservations in force that conflict: its last happening brings one back. */
  lemma RetainedRowReturns(s: State)
    requires Initial(s) && s.kind == Main
    ensures AllPossible(RETURNING) && CrashFree(s, RETURNING) && EachOnce(s, RETURNING)
    ensures var t := RunOf(s, RETURNING);
            KEPT in Active(t.pools, t.busy) && SECOND_TASK in Active(t.pools, t.busy) && Conflicts(KEPT, SECOND_TASK)
    ensures !ReturnsSafely(RunOf(s, RETURNING[..5]), RETURNING[5])
  {
    SecondIsAdmitted(s);
    Happens(s, RETURNING[..5], RETURNING[5]);
    assert RETURNING == RETURNING[..5] + [RETURNING[5]];
    var t := RunOf(s, RETURNING);
    assert KEPT in t.pools[0] && InForce(KEPT, t.busy) && SECOND_TASK in t.pools[1] && InForce(SECOND_TASK, t.busy);
    assert Paths.Overlaps("x", "x") && Paths.Intersects(KEPT.mutationPaths, SECOND_TASK.mutationPaths);
    assert Returns(t.pools, {}, t.busy, 0, KEPT) && InForceAt(t.pools, t.busy, 1, SECOND_TASK);
    PoolsAreCrashFree(s, RETURNING);
  }

  /** Nothing but an operation can be cut. */
  lemma {:induction false} PoolsAreCrashFree(s: State, trace: seq<Happening>)
    requires forall i | 0 <= i < |trace| :: !trace[i].Operate?
    ensures CrashFree(s, trace)
  {
    if trace != [] {
      PoolsAreCrashFree(s, trace[..|trace| - 1]);
    }
  }
}
