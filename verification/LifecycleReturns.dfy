/** Reservations in force over whole runs: when a retained reservation may come back. */
module LifecycleReturns {
  import opened Basics
  import opened Integration
  import opened Reservations
  import opened Lifecycle
  import opened LifecycleSaves
  import opened LifecycleCustody

  /** Reservations in force, of one pool or of two, do not conflict. */
  ghost predicate InForceApart(pools: Pools, busy: set<string>) {
    forall i, j, a, b | InForceAt(pools, busy, i, a) && InForceAt(pools, busy, j, b) && (i != j || a != b) ::
      !Conflicts(a, b)
  }

  predicate InForceAt(pools: Pools, busy: set<string>, i: int, row: Reservation) {
    0 <= i < |pools| && row in pools[i] && InForce(row, busy)
  }

  /** A retained row whose candidate takes up an operation again. */
  predicate Returns(pools: Pools, busy: set<string>, now: set<string>, i: int, row: Reservation) {
    InForceAt(pools, now, i, row) && !InForce(row, busy)
  }

  /** No row that comes back conflicts with another one in force by then. */
  ghost predicate ReturnsClear(pools: Pools, busy: set<string>, now: set<string>) {
    forall i, j, a, b | Returns(pools, busy, now, i, a) && InForceAt(pools, now, j, b) && (i != j || a != b) ::
      !Conflicts(a, b)
  }

  /** An outcome settles once: its row is not retained yet. */
  predicate SettlesOnce(pools: Pools, pool: nat, id: string) {
    pool < |pools| ==> forall row | row in pools[pool] && row.id == id :: Unsettled(row)
  }

  /** Candidates that take up an operation again bring back no row that conflicts with another one in force. */
  ghost predicate ReturnsSafely(s: State, h: Happening) {
    h.ChangeBusy? ==> ReturnsClear(s.pools, s.busy, h.busy)
  }

  ghost predicate Once(s: State, h: Happening) {
    h.SettleOutcome? ==> SettlesOnce(s.pools, h.pool, h.id)
  }

  // ----- One step -----

  lemma BusyKeepsApart(pools: Pools, busy: set<string>, now: set<string>)
    requires InForceApart(pools, busy)
    ensures InForceApart(pools, now) <==> ReturnsClear(pools, busy, now)
  {
    if ReturnsClear(pools, busy, now) {
      forall i, j, a, b | InForceAt(pools, now, i, a) && InForceAt(pools, now, j, b) && (i != j || a != b)
        ensures !Conflicts(a, b)
      {
        ConflictsSymmetric(a, b);
        if InForce(a, busy) && InForce(b, busy) {
          assert InForceAt(pools, busy, i, a) && InForceAt(pools, busy, j, b);
        } else if !InForce(a, busy) {
          assert Returns(pools, busy, now, i, a);
        } else {
          assert Returns(pools, busy, now, j, b);
        }
      }
    }
  }

  lemma AdmissionKeepsInForceApart(pools: Pools, busy: set<string>, tasks: seq<Reservation>)
    requires InForceApart(pools, busy) && Admissible(Reservations.Active(pools, busy), tasks)
    ensures InForceApart(pools + [Elements(tasks)], busy)
  {
    var grown := pools + [Elements(tasks)];
    forall i, j, a, b | InForceAt(grown, busy, i, a) && InForceAt(grown, busy, j, b) && (i != j || a != b)
      ensures !Conflicts(a, b)
    {
      ConflictsSymmetric(a, b);
      if i < |pools| && j < |pools| {
        assert InForceAt(pools, busy, i, a) && InForceAt(pools, busy, j, b);
      } else if i < |pools| {
        AdmittedBeside(pools, busy, tasks, i, a, b);
      } else if j < |pools| {
        AdmittedBeside(pools, busy, tasks, j, b, a);
      } else {
        var k :| 0 <= k < |tasks| && tasks[k] == a;
        var l :| 0 <= l < |tasks| && tasks[l] == b;
        assert k < l || l < k;
      }
    }
  }

  lemma AdmittedBeside(pools: Pools, busy: set<string>, tasks: seq<Reservation>, i: int, row: Reservation,
                       task: Reservation)
    requires Admissible(Reservations.Active(pools, busy), tasks) && InForceAt(pools, busy, i, row) && task in tasks
    ensures !Conflicts(row, task) && !Conflicts(task, row)
  {
    var k :| 0 <= k < |tasks| && tasks[k] == task;
    assert row in Reservations.Active(pools, busy);
    ConflictsSymmetric(row, task);
  }

  lemma SettlingKeepsInForceApart(pools: Pools, busy: set<string>, pool: nat, id: string, retained: Option<string>)
    requires InForceApart(pools, busy) && pool < |pools| && SettlesOnce(pools, pool, id)
    ensures InForceApart(pools[pool := SettleRow(pools[pool], id, retained)], busy)
  {
    var now := pools[pool := SettleRow(pools[pool], id, retained)];
    forall i, j, a, b | InForceAt(now, busy, i, a) && InForceAt(now, busy, j, b) && (i != j || a != b)
      ensures !Conflicts(a, b)
    {
      var c := BeforeSettling(pools, busy, pool, id, retained, i, a);
      var d := BeforeSettling(pools, busy, pool, id, retained, j, b);
      assert i == j ==> c != d;
    }
  }

  /** A row in force after a settlement was in force before it, with nothing changed but its retention. */
  lemma BeforeSettling(pools: Pools, busy: set<string>, pool: nat, id: string, retained: Option<string>, i: int,
                       row: Reservation) returns (origin: Reservation)
    requires pool < |pools| && SettlesOnce(pools, pool, id)
    requires InForceAt(pools[pool := SettleRow(pools[pool], id, retained)], busy, i, row)
    ensures InForceAt(pools, busy, i, origin)
    ensures row == if i == pool && origin.id == id then origin.(retained := retained) else origin
  {
    origin := row;
    if i == pool {
      origin :| origin in pools[pool] && row == if origin.id == id then origin.(retained := retained) else origin;
    }
  }

  lemma {:induction false} WritesKeepBusy(s: State, writes: seq<Write>)
    ensures Perform(s, writes).busy == s.busy
  {
    if writes != [] {
      WritesKeepBusy(s, writes[..|writes| - 1]);
    }
  }

  /** One step, exactly: reservations in force stay apart if and only if no candidate that takes up an operation
      again brings back a row that conflicts with another one in force. */
  lemma StepKeepsApartExactly(s: State, h: Happening)
    requires InForceApart(s.pools, s.busy) && Once(s, h)
    ensures InForceApart(After(s, h).pools, After(s, h).busy) <==> ReturnsSafely(s, h)
  {
    match h
    case Operate(op, cut) =>
      PerformKeepsPools(s, Cut(PlanOf(s, op).writes, cut));
      WritesKeepBusy(s, Cut(PlanOf(s, op).writes, cut));
    case AdmitPool(tasks) =>
      if PoolAdmitted(s, tasks) {
        AdmissionKeepsInForceApart(s.pools, s.busy, tasks);
      }
    case SettleOutcome(pool, id, retained) =>
      if pool < |s.pools| {
        SettlingKeepsInForceApart(s.pools, s.busy, pool, id, retained);
      }
    case ChangeBusy(busy) => BusyKeepsApart(s.pools, s.busy, busy);
    case _ =>
  }

  // ----- Every run -----

  /** Reservations in force are apart throughout the run. */
  ghost predicate AlwaysApart(s: State, trace: seq<Happening>) {
    && InForceApart(RunOf(s, trace).pools, RunOf(s, trace).busy)
    && (trace == [] || AlwaysApart(s, trace[..|trace| - 1]))
  }

  ghost predicate AlwaysReturnsSafely(s: State, trace: seq<Happening>) {
    trace == [] ||
    (AlwaysReturnsSafely(s, trace[..|trace| - 1])
     && ReturnsSafely(RunOf(s, trace[..|trace| - 1]), trace[|trace| - 1]))
  }

  /** Each outcome settles at most once. */
  ghost predicate EachOnce(s: State, trace: seq<Happening>) {
    trace == [] ||
    (EachOnce(s, trace[..|trace| - 1]) && Once(RunOf(s, trace[..|trace| - 1]), trace[|trace| - 1]))
  }

  /** Over every run in which each outcome settles once, crashes included: reservations in force are pairwise
      apart, throughout, if and only if no candidate that takes up an operation again ever brings back a retained
      row that conflicts with another one in force. */
  lemma {:induction false} ReservationsHold(s: State, trace: seq<Happening>)
    requires Initial(s) && EachOnce(s, trace)
    ensures AlwaysApart(s, trace) <==> AlwaysReturnsSafely(s, trace)
  {
    if trace != [] {
      var front := trace[..|trace| - 1];
      ReservationsHold(s, front);
      if AlwaysApart(s, front) {
        StepKeepsApartExactly(RunOf(s, front), trace[|trace| - 1]);
      }
    }
  }

  /** Nothing returns while no candidate takes up an operation again. */
  lemma NothingReturns(s: State, h: Happening)
    requires h.ChangeBusy? ==> h.busy <= s.busy
    ensures ReturnsSafely(s, h)
  {
  }
}
