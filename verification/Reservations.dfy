/** Which paths a delivery always depends on, whatever it declares. */
module Lineage {
  import opened Basics
  import opened Records
  import Paths

  predicate LiveRuntime(path: Path) {
    var segments := Paths.Segments(path);
    |segments| > 1 && segments[0] in ["coding-harness", "scripts", "config"]
  }

  predicate Contains(text: string, part: string) {
    part <= text || (text != "" && Contains(text[1..], part))
  }

  /** File names of locks, manifests and build configuration. */
  predicate ManifestName(name: string) {
    || Contains(name, "lock") || "tsconfig" <= name
    || name in ["package.json", "Cargo.toml", "build.rs", "rust-toolchain", "rust-toolchain.toml", ".gitignore",
                ".gitattributes"]
  }

  /** `requiredDeliveryInputs`, path by path. */
  predicate RequiredInput(path: Path, checks: seq<CheckSpec>) {
    var segments := Paths.Segments(path);
    || (exists i | 0 <= i < |checks| :: checks[i].tool == "node" && checks[i].script == Some(path))
    || LiveRuntime(path)
    || (exists i | 0 <= i < |segments| - 1 :: segments[i] in [".cargo", "tests", "benches"])
    || ManifestName(segments[|segments| - 1])
  }
}

/** Reservations of running cohorts, and the guards of admission and integration. */
module Reservations {
  import opened Basics
  import opened Integration
  import opened Lineage
  import Paths

  /** No read paths means undeclared reads. A settled outcome whose candidate still had an operation is
      retained with the candidate's directory. */
  datatype Reservation = Reservation(
    id: string,
    mutationPaths: set<Path>,
    readPaths: Option<set<Path>>,
    resources: set<string>,
    privateSnapshot: bool,
    retained: Option<string>)

  /** One reservation file per pool. */
  type Pools = seq<set<Reservation>>

  /** A row counts unless it is retained for a candidate without an operation. */
  predicate InForce(row: Reservation, busy: set<string>) {
    row.retained.Some? ==> row.retained.value in busy
  }

  function Active(pools: Pools, busy: set<string>): set<Reservation> {
    set i, row | 0 <= i < |pools| && row in pools[i] && InForce(row, busy) :: row
  }

  predicate Conflicts(a: Reservation, b: Reservation) {
    a.id == b.id || Paths.Intersects(a.mutationPaths, b.mutationPaths) || a.resources * b.resources != {}
  }

  /** Declared reads, and the inputs that stay implicit: live runtime for a private snapshot, every required input
      otherwise. */
  predicate Reads(row: Reservation, paths: set<Path>) {
    || row.readPaths.None? || Paths.Intersects(row.readPaths.value, paths)
    || (exists path | path in paths :: if row.privateSnapshot then LiveRuntime(path) else RequiredInput(path, []))
  }

  predicate IntegrationConflict(row: Reservation, scope: set<Path>, resources: set<string>) {
    Paths.Intersects(row.mutationPaths, scope) || Reads(row, scope) || row.resources * resources != {}
  }

  /** `assertReservationAdmission` together with the pairwise check of the incoming tasks. */
  predicate Admissible(active: set<Reservation>, tasks: seq<Reservation>) {
    && (forall row, i | row in active && 0 <= i < |tasks| :: !Conflicts(row, tasks[i]))
    && (forall i, j | 0 <= i < j < |tasks| :: !Conflicts(tasks[j], tasks[i]))
  }

  predicate IntegrationFree(active: set<Reservation>, scope: set<Path>, resources: set<string>) {
    forall row | row in active :: !IntegrationConflict(row, scope, resources)
  }

  /** The part of `assertCandidateAdmission` about one task and one claimed, prepared integration. */
  predicate MayRunBeside(task: Reservation, runId: string, scope: set<Path>, resources: set<string>) {
    && task.readPaths.Some? && !Paths.Intersects(task.readPaths.value, scope)
    && task.id != runId && !Paths.Intersects(task.mutationPaths, scope) && task.resources * resources == {}
  }

  predicate NoLiveRuntime(scope: set<Path>) {
    forall path | path in scope :: !LiveRuntime(path)
  }

  /** Admission beside an integration is the integration's own guard exactly for private snapshots and for
      scopes without required inputs: a task that is neither is admitted though the guard would refuse it. */
  lemma AdmissionGap(task: Reservation, runId: string, scope: set<Path>, resources: set<string>)
    requires MayRunBeside(task, runId, scope, resources) && NoLiveRuntime(scope)
    ensures IntegrationConflict(task, scope, resources) <==>
            !task.privateSnapshot && exists path :: path in scope && RequiredInput(path, [])
  {
    assert !Paths.Intersects(task.mutationPaths, scope) && !Paths.Intersects(task.readPaths.value, scope);
  }

  lemma AdmissionGapIsReal()
    ensures var task := Reservation("t", {"b"}, Some({}), {}, false, None);
            && MayRunBeside(task, "r", {"Cargo.toml"}, {}) && NoLiveRuntime({"Cargo.toml"})
            && IntegrationConflict(task, {"Cargo.toml"}, {})
  {
    SingleSegment("Cargo.toml");
    assert RequiredInput("Cargo.toml", []);
    assert ("b" + "/")[0] == 'b' && "Cargo.toml"[0] == 'C' && ("Cargo.toml" + "/")[0] == 'C';
    assert !Paths.Overlaps("b", "Cargo.toml");
  }

  lemma {:induction false} SingleSegment(path: Path)
    requires '/' !in path
    ensures Paths.Segments(path) == [path]
  {
    if path != "" {
      var front := path[..|path| - 1];
      SingleSegment(front);
      assert path == front + [path[|path| - 1]];
      assert path[|path| - 1] in path;
      assert Paths.Segments(path) == Paths.Extend([front], path[|path| - 1]);
    }
  }

  // ----- Settling -----

  predicate Unsettled(row: Reservation) {
    row.retained.None?
  }

  /** Unsettled reservations, of one pool or of two, do not conflict. */
  ghost predicate Apart(pools: Pools) {
    forall i, j, a, b | 0 <= i < |pools| && 0 <= j < |pools| && a in pools[i] && b in pools[j]
                        && (i != j || a != b) && Unsettled(a) && Unsettled(b) :: !Conflicts(a, b)
  }

  ghost predicate Fresh(tasks: seq<Reservation>) {
    forall i | 0 <= i < |tasks| :: Unsettled(tasks[i])
  }

  /** The file after an outcome settles: its row is dropped, or retained with its candidate's directory. */
  function SettleRow(rows: set<Reservation>, id: string, retained: Option<string>): set<Reservation> {
    set row | row in rows && (row.id != id || retained.Some?) :: if row.id == id then row.(retained := retained)
      else row
  }

  lemma ConflictsSymmetric(a: Reservation, b: Reservation)
    ensures Conflicts(a, b) == Conflicts(b, a)
  {
    Paths.IntersectsSymmetric(a.mutationPaths, b.mutationPaths);
    assert a.resources * b.resources == b.resources * a.resources;
  }

  lemma AdmissionKeepsApart(pools: Pools, busy: set<string>, tasks: seq<Reservation>)
    requires Apart(pools) && Fresh(tasks) && Admissible(Active(pools, busy), tasks)
    ensures Apart(pools + [Elements(tasks)])
  {
    var grown := pools + [Elements(tasks)];
    forall i, j, a, b | 0 <= i < |grown| && 0 <= j < |grown| && a in grown[i] && b in grown[j]
                        && (i != j || a != b) && Unsettled(a) && Unsettled(b)
      ensures !Conflicts(a, b)
    {
      ConflictsSymmetric(a, b);
      if i == |pools| {
        var k :| 0 <= k < |tasks| && tasks[k] == a;
        if j == |pools| {
          var l :| 0 <= l < |tasks| && tasks[l] == b;
          ConflictsSymmetric(tasks[k], tasks[l]);
        } else {
          assert b in pools[j] && InForce(b, busy) && b in Active(pools, busy);
        }
      } else if j == |pools| {
        var l :| 0 <= l < |tasks| && tasks[l] == b;
        assert a in pools[i] && InForce(a, busy) && a in Active(pools, busy);
      }
    }
  }

  lemma SettlingKeepsApart(pools: Pools, pool: nat, id: string, retained: Option<string>)
    requires Apart(pools) && pool < |pools|
    ensures Apart(pools[pool := SettleRow(pools[pool], id, retained)])
    ensures forall i, row | 0 <= i < |pools| && row in pools[pool := SettleRow(pools[pool], id, retained)][i]
            && Unsettled(row) ::
              row in pools[i]
  {
  }
}
