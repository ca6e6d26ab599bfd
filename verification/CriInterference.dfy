/**
 What the rest of the host can do to a pod while its own call is between two sections.
 */
module CriInterference {
  import opened Options
  import opened CriState
  import opened CriSteps
  import opened CriInvariant
  import opened CriPreserve
  import opened CriTheorems

  // A step the rest of the host may take while the call on pod s is between two sections.
  predicate Others(h: Host, s: SandboxId, e: Step) {
    && CallOf(h, e) != Some(s)
    && !e.Crash? && !e.Boot? && !e.LoadContainer? && !e.LoadSandboxes?
    && ((e.EngineWrites? || e.EngineExecs? || e.EngineDies?) ==> e.s != s)
  }

  lemma OthersLeaveTheCall(h: Host, s: SandboxId, e: Step)
    requires Enabled(h, e) && Others(h, s, e)
    ensures Get(Apply(h, e).calls, s) == Get(h.calls, s) && Apply(h, e).phase == h.phase
  {
    hide AdvanceCall, CanAdvance, RecordExit, Recovered, CrashHost;
    if e.Advance? {
      AdvanceElsewhere(h, s, e.s, e.ch);
    } else if CallOf(h, e).Some? {
      BeginElsewhere(h, s, e);
    } else if e.ReaperRecords? {
      RecordStays(h, e.c);
    }
  }

  lemma AdvanceElsewhere(h: Host, s: SandboxId, t: SandboxId, ch: Choice)
    requires t in h.calls && CanAdvance(h, t, h.calls[t], ch) && s != t
    ensures Get(AdvanceCall(h, t, ch).calls, s) == Get(h.calls, s) && AdvanceCall(h, t, ch).phase == h.phase
  {
  }

  lemma BeginElsewhere(h: Host, s: SandboxId, e: Step)
    requires Enabled(h, e) && CallOf(h, e).Some? && CallOf(h, e) != Some(s) && !e.Advance?
    ensures Get(Apply(h, e).calls, s) == Get(h.calls, s) && Apply(h, e).phase == h.phase
  {
  }

  // ── What they leave alone ─────────────────────────────────────────────────

  // Cached the same, or a Running record that is now Exited.
  predicate SameOrExited(was: Option<ContainerRecord>, now: Option<ContainerRecord>) {
    now == was || (was.Some? && now.Some? && was.value.state == Running && now.value.state == Exited)
  }

  // Pod s and its containers are as they were, but for exits recorded by reapers.
  ghost predicate Kept(h: Host, h': Host, s: SandboxId) {
    && PodOf(h', s) == PodOf(h, s)
    && forall c | Of(h, c, s) :: Of(h', c, s) && SameOrExited(Get(h.cacheC, c), Get(h'.cacheC, c))
  }

  lemma KeptRefl(h: Host, s: SandboxId)
    ensures Kept(h, h, s)
  {
  }

  lemma KeptTrans(h0: Host, h1: Host, h2: Host, s: SandboxId)
    requires Kept(h0, h1, s) && Kept(h1, h2, s)
    ensures Kept(h0, h2, s)
  {
  }

  lemma KeptRecord(h: Host, h': Host, s: SandboxId, c: ContainerId)
    requires Kept(h, h', s) && Of(h, c, s)
    ensures SameOrExited(Get(h.cacheC, c), Get(h'.cacheC, c))
  {
  }

  // A call on another pod works on that pod's sandbox record and one of its containers.
  lemma CanStep(h: Host, t: SandboxId, ch: Choice)
    requires Enabled(h, Advance(t, ch))
    ensures t in h.calls && CanAdvance(h, t, h.calls[t], ch)
  {
    hide CanAdvance;
  }

  lemma OkTouches(h: Host, h': Host, t: SandboxId, oc: Option<ContainerId>)
    requires StepOk(h, h', t, oc)
    ensures Touched(h, h', t, oc)
  {
    hide Touched, CellLaw, PodLaw, CascadeLaw, KeepsPod, Concerns;
  }

  lemma AdvanceKeepsOthers(h: Host, s: SandboxId, t: SandboxId, ch: Choice)
    requires Inv(h) && Enabled(h, Advance(t, ch)) && s != t
    ensures Kept(h, AdvanceCall(h, t, ch), s)
  {
    hide *;
    CanStep(h, t, ch);
    AdvanceOk(h, t, ch);
    OkTouches(h, AdvanceCall(h, t, ch), t, StepSubject(h, t, ch));
    TouchedElsewhere(h, AdvanceCall(h, t, ch), t, StepSubject(h, t, ch), s);
  }

  lemma TouchedElsewhere(h: Host, h': Host, t: SandboxId, oc: Option<ContainerId>, s: SandboxId)
    requires Touched(h, h', t, oc) && s != t
    ensures Kept(h, h', s)
  {
    forall c | Of(h, c, s) ensures Of(h', c, s) && SameOrExited(Get(h.cacheC, c), Get(h'.cacheC, c)) {
      assert Some(c) != oc;
      assert CellOf(h', c) == CellOf(h, c) && Get(h'.owner, c) == Get(h.owner, c);
    }
  }

  lemma SameStoresKept(h: Host, h': Host, s: SandboxId)
    requires SameStores(h, h')
    ensures Kept(h, h', s)
  {
  }

  lemma RecordKept(h: Host, c: ContainerId, s: SandboxId)
    requires Enabled(h, ReaperRecords(c))
    ensures Kept(h, RecordExit(h, c), s)
  {
  }

  predicate SameStores(h: Host, h': Host) {
    h'.cacheC == h.cacheC && h'.cacheS == h.cacheS && h'.diskS == h.diskS && h'.owner == h.owner
  }

  lemma BeginKeepsStores(h: Host, e: Step)
    requires Enabled(h, e) && CallOf(h, e).Some? && !e.Advance?
    ensures SameStores(h, Apply(h, e))
  {
    hide AdvanceCall, RecordExit, CanAdvance, Recovered, CrashHost;
  }

  lemma WakeKeepsStores(h: Host, c: ContainerId, waitOk: bool, now: int)
    requires Enabled(h, ReaperWakes(c, waitOk, now))
    ensures SameStores(h, Apply(h, ReaperWakes(c, waitOk, now)))
  {
  }

  lemma QuietlyKept(h: Host, s: SandboxId, e: Step)
    requires Enabled(h, e) && Others(h, s, e) && !e.Advance? && !e.ReaperRecords?
    ensures SameStores(h, Apply(h, e))
  {
    hide Apply, Enabled;
    if CallOf(h, e).Some? {
      BeginKeepsStores(h, e);
    } else if e.ReaperWakes? {
      WakeKeepsStores(h, e.c, e.waitOk, e.now);
    } else if e.EngineWrites? || e.EngineExecs? || e.EngineDies? {
      EngineViews(h, e.s, e);
    } else if e.ProcExits? || e.InitReaps? || e.ForeignSpawn? {
      ProcessViews(h, e);
    } else {
      UnmintedNeverBegin(h, e);
    }
  }

  lemma UnmintedNeverBegin(h: Host, e: Step)
    requires Enabled(h, e) && (e.BeginStart? || e.BeginStop? || e.BeginRemove?)
    ensures CallOf(h, e).Some?
  {
  }

  // Whatever the rest of the host does leaves this pod as it was, up to recorded exits.
  lemma OthersKeep(h: Host, s: SandboxId, e: Step)
    requires Inv(h) && Enabled(h, e) && Others(h, s, e)
    ensures Kept(h, Apply(h, e), s)
  {
    hide Inv, Kept, AdvanceCall, RecordExit, CanAdvance;
    if e.Advance? {
      AdvanceKeepsOthers(h, s, e.s, e.ch);
    } else if e.ReaperRecords? {
      RecordKept(h, e.c, s);
    } else {
      QuietlyKept(h, s, e);
      SameStoresKept(h, Apply(h, e), s);
    }
  }

  lemma RunOthersKeep(hs: seq<Host>, steps: seq<Step>, i: nat, s: SandboxId, e: Step)
    requires IsRun(hs, steps) && i < |hs| && Enabled(hs[i], e) && Others(hs[i], s, e)
    ensures Kept(hs[i], Apply(hs[i], e), s)
  {
    hide *;
    RunKeepsInv(hs, steps, i);
    OthersKeep(hs[i], s, e);
  }
}
