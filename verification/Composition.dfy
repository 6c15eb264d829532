/** Canonical runs whose candidates come from candidate harnesses. */
module Composition {
  import opened Basics
  import opened Records
  import opened Lifecycle
  import opened LifecycleInvariant
  import opened LifecycleSaves
  import opened LifecycleCustody
  import LifecycleTheorems
  import Reservations
  import Workflows

  /** What happens in a candidate harness, which never integrates. */
  ghost predicate InCandidate(h: Happening) {
    Possible(h) && (h.Operate? ==> !h.op.IntegrateCandidate?)
  }

  /** The record of a run in a candidate harness, with any crashes and interference. */
  ghost predicate Authored(run: Run) {
    exists s, trace: seq<Happening> ::
      && Initial(s) && s.kind == Candidate && (forall i | 0 <= i < |trace| :: InCandidate(trace[i]))
      && run.task.id in RunOf(s, trace).records && RunOf(s, trace).records[run.task.id] == run
  }

  lemma AuthoredIsSound(run: Run)
    requires Authored(run)
    ensures Sound(run)
  {
    var s, trace: seq<Happening> :|
      && Initial(s) && s.kind == Candidate && (forall i | 0 <= i < |trace| :: InCandidate(trace[i]))
      && run.task.id in RunOf(s, trace).records && RunOf(s, trace).records[run.task.id] == run;
    LifecycleTheorems.RecordIsSound(s, trace, run.task.id);
  }

  /** A canonical happening whose integrated candidate was authored in a candidate harness. */
  ghost predicate Composed(h: Happening) {
    && (h.AdmitPool? ==> Reservations.Fresh(h.tasks))
    && (h.Operate? ==>
          && (h.op.BeginRun? ==> Workflows.DistinctChecks(h.op.task))
          && (h.op.IntegrateCandidate? ==>
                && (h.op.checkout.record.Some? ==> Authored(h.op.checkout.record.value))
                && (h.op.checkout.custody.declaredReads.None? ==>
                      h.op.checkout.custody.base.Keys <= h.op.checkout.custody.readPaths)))
  }

  /** Every law about possible runs holds of composed runs: nothing is assumed of a candidate's record. */
  lemma ComposedIsPossible(trace: seq<Happening>)
    requires forall i | 0 <= i < |trace| :: Composed(trace[i])
    ensures AllPossible(trace)
  {
    forall i | 0 <= i < |trace|
      ensures Possible(trace[i])
    {
      var h := trace[i];
      if h.Operate? && h.op.IntegrateCandidate? && h.op.checkout.record.Some? {
        AuthoredIsSound(h.op.checkout.record.value);
      }
    }
  }
}
