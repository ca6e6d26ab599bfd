/**
 Recovery on open is idempotent: opening a home again, with no process gone in between,
 rewrites nothing, however many crashes interrupt the openings.
 */
module CriRecovery {
  import opened CriState
  import opened CriSteps
  import opened CriTheorems

  predicate Recovering(step: Step) {
    step.Crash? || step.Boot? || step.LoadContainer? || step.LoadSandboxes?
  }

  // A Running record whose process exists: recovery leaves every other kind alone too.
  predicate Survives(rec: ContainerRecord, procs: map<nat, Proc>) {
    rec.state == Running ==> rec.pid > 0 && rec.pid in procs
  }

  // Every record recovery has already been over needs nothing further.
  predicate Swept(h: Host) {
    && (h.phase.Up? ==> forall c | c in h.diskC :: Survives(h.diskC[c], h.procs))
    && (h.phase.Loading? ==> forall c | c in h.diskC && c !in h.phase.todo :: Survives(h.diskC[c], h.procs))
  }

  predicate Clean(h: Host) {
    forall c | c in h.diskC :: h.diskC[c].id == c && Survives(h.diskC[c], h.procs)
  }

  lemma SweepStep(h: Host, step: Step)
    requires Enabled(h, step) && Recovering(step) && Swept(h)
    requires step.LoadContainer? ==> h.diskC[step.c].id == step.c
    ensures Swept(Apply(h, step))
  {
  }

  lemma CleanStep(h: Host, step: Step)
    requires Enabled(h, step) && Recovering(step) && Clean(h)
    ensures Clean(Apply(h, step)) && Apply(h, step).diskC == h.diskC && Apply(h, step).diskS == h.diskS
  {
  }

  lemma StoredId(hs: seq<Host>, steps: seq<Step>, i: nat, c: ContainerId)
    requires IsRun(hs, steps) && i < |hs| && c in hs[i].diskC
    ensures hs[i].diskC[c].id == c
  {
    RunFacts(hs, steps, i, c);
  }

  lemma {:induction false} Sweeps(hs: seq<Host>, steps: seq<Step>, i: nat, j: nat)
    requires IsRun(hs, steps) && i <= j < |hs| && hs[i].phase.Down?
    requires forall k | i <= k < j :: Recovering(steps[k])
    ensures Swept(hs[j])
    decreases j
  {
    if i < j {
      Sweeps(hs, steps, i, j - 1);
      assert StepAt(hs, steps, j - 1);
      if steps[j - 1].LoadContainer? {
        StoredId(hs, steps, j - 1, steps[j - 1].c);
      }
      SweepStep(hs[j - 1], steps[j - 1]);
    }
  }

  lemma {:induction false} StaysClean(hs: seq<Host>, steps: seq<Step>, i: nat, j: nat)
    requires IsRun(hs, steps) && i <= j < |hs| && Clean(hs[i])
    requires forall k | i <= k < j :: Recovering(steps[k])
    ensures Clean(hs[j]) && hs[j].diskC == hs[i].diskC && hs[j].diskS == hs[i].diskS
    decreases j
  {
    if i < j {
      StaysClean(hs, steps, i, j - 1);
      assert StepAt(hs, steps, j - 1);
      CleanStep(hs[j - 1], steps[j - 1]);
    }
  }

  // From a crashed home at i, nothing but crashes and openings: once one opening has
  // finished, at j, no later one changes a record, its timestamps included.
  lemma RecoveryIsIdempotent(hs: seq<Host>, steps: seq<Step>, i: nat, j: nat, k: nat)
    requires IsRun(hs, steps) && i <= j <= k < |hs| && hs[i].phase.Down? && hs[j].phase.Up?
    requires forall n | i <= n < k :: Recovering(steps[n])
    ensures hs[k].diskC == hs[j].diskC && hs[k].diskS == hs[j].diskS
  {
    Sweeps(hs, steps, i, j);
    forall c | c in hs[j].diskC ensures hs[j].diskC[c].id == c {
      StoredId(hs, steps, j, c);
    }
    StaysClean(hs, steps, j, k);
  }
}
