/**
 What the step machine guarantees over whole runs: any number of pods with one call each in
 flight, reapers and processes moving at every boundary, and a crash at any instant.
 */
module CriTheorems {
  import opened Options
  import opened CriState
  import opened CriSteps
  import opened CriInvariant
  import opened CriPreserve

  // ── Runs ──────────────────────────────────────────────────────────────────

  ghost predicate StepAt(hs: seq<Host>, steps: seq<Step>, i: nat)
    requires i < |steps| && |hs| == |steps| + 1
  {
    Enabled(hs[i], steps[i]) && hs[i + 1] == Apply(hs[i], steps[i])
  }

  ghost predicate IsRun(hs: seq<Host>, steps: seq<Step>) {
    |hs| == |steps| + 1 && hs[0] == EMPTY_HOME && forall i: nat | i < |steps| :: StepAt(hs, steps, i)
  }

  lemma {:induction false} RunKeepsInv(hs: seq<Host>, steps: seq<Step>, i: nat)
    requires IsRun(hs, steps) && i < |hs|
    ensures Inv(hs[i])
  {
    hide Inv, Apply, Enabled;
    if i == 0 {
      EmptyHomeIsFine();
    } else {
      RunKeepsInv(hs, steps, i - 1);
      assert StepAt(hs, steps, i - 1);
      Keeps(hs[i - 1], steps[i - 1]);
    }
  }

  lemma EmptyHomeIsFine()
    ensures Inv(EMPTY_HOME)
  {
  }

  // ── Reading the invariant ─────────────────────────────────────────────────

  lemma StoredRecord(h: Host, c: ContainerId)
    requires Inv(h) && c in h.diskC
    ensures c in h.owner
    ensures var rec := h.diskC[c];
            && rec.id == c && rec.sandbox == h.owner[c] && rec.sandbox in h.diskS && rec.state != Unknown
            && (rec.state == Running && HasNetns(Get(h.diskS, rec.sandbox)) ==>
                  rec.pid in Launched(h, c) && rec.pid > 0)
  {
    assert DiskLaw(c, h.owner[c], CellOf(h, c), PodOf(h, h.owner[c]));
  }

  lemma LiveCell(h: Host, c: ContainerId)
    requires Inv(h) && h.phase.Up? && c in h.owner
    ensures var s := h.owner[c]; s in h.pods && CellLaw(c, s, CellOf(h, c), PodOf(h, s), Get(h.calls, s))
  {
  }

  lemma LivePod(h: Host, s: SandboxId)
    requires Inv(h) && h.phase.Up? && s in h.pods
    ensures PodLaw(s, PodOf(h, s), Get(h.calls, s))
  {
  }

  // ── How the disk moves ────────────────────────────────────────────────────

  // c was minted and its first persist is not still to come.
  predicate Existing(h: Host, c: ContainerId) {
    c in h.owner && !(h.owner[c] in h.calls && h.calls[h.owner[c]].CreatePersist? && h.calls[h.owner[c]].snap.id == c)
  }

  predicate PodExisting(h: Host, s: SandboxId) {
    s in h.pods && !(s in h.calls && h.calls[s].RunPersist?)
  }

  predicate Closed(h: Host, s: SandboxId) {
    PodExisting(h, s) && (s in h.diskS ==> h.diskS[s].state == NotReady)
  }

  // An existing container's record is only replaced by a later version or removed for good.
  predicate ContainerMoves(h: Host, h': Host, c: ContainerId) {
    Existing(h, c) ==>
      && Existing(h', c)
      && (c in h'.diskC ==> c in h.diskC && (h'.diskC[c] == h.diskC[c] || Follows(h.diskC[c], h'.diskC[c])))
  }

  // An existing sandbox record is only marked NotReady or removed for good.
  predicate SandboxMoves(h: Host, h': Host, s: SandboxId) {
    PodExisting(h, s) ==>
      && PodExisting(h', s)
      && (s in h'.diskS ==>
            s in h.diskS && (h'.diskS[s] == h.diskS[s] || h'.diskS[s] == h.diskS[s].(state := NotReady)))
  }

  // A closed pod gains no container.
  predicate NoNewcomer(h: Host, h': Host, c: ContainerId) {
    c in h'.diskC && c in h'.owner && Closed(h, h'.owner[c]) ==> c in h.diskC
  }

  ghost predicate Moves(h: Host, h': Host) {
    && (forall c | c in h.owner :: c in h'.owner && h'.owner[c] == h.owner[c])
    && (forall c :: ContainerMoves(h, h', c) && NoNewcomer(h, h', c))
    && (forall s :: SandboxMoves(h, h', s))
  }

  lemma MovesRefl(h: Host)
    ensures Moves(h, h)
  {
  }

  lemma MovesTrans(h0: Host, h1: Host, h2: Host)
    requires Moves(h0, h1) && Moves(h1, h2) && h1.diskC.Keys <= h1.owner.Keys
    ensures Moves(h0, h2)
  {
    forall s ensures SandboxMoves(h0, h2, s) {
      assert SandboxMoves(h0, h1, s) && SandboxMoves(h1, h2, s);
    }
    forall c ensures ContainerMoves(h0, h2, c) {
      assert ContainerMoves(h0, h1, c) && ContainerMoves(h1, h2, c);
    }
    forall c ensures NoNewcomer(h0, h2, c) {
      if c in h2.diskC && c in h2.owner && Closed(h0, h2.owner[c]) {
        var s := h2.owner[c];
        assert SandboxMoves(h0, h1, s);
        assert Closed(h1, s);
        assert NoNewcomer(h1, h2, c) && ContainerMoves(h1, h2, c) && NoNewcomer(h0, h1, c);
      }
    }
  }

  // What the persist point of a call relies on.
  predicate PersistOk(h: Host, s: SandboxId)
    requires s in h.calls
  {
    var pc := h.calls[s];
    && (Persists(pc).Some? && !pc.CreatePersist? ==>
          var rec := Persists(pc).value; rec.id in h.diskC && Follows(h.diskC[rec.id], rec))
    && (pc.CreatePersist? ==> Of(h, pc.snap.id, s) && s in h.diskS && h.diskS[s].state == SandboxState.Ready)
    && PodLaw(s, PodOf(h, s), Some(pc))
  }

  lemma PersistIsOk(h: Host, s: SandboxId)
    requires Inv(h) && s in h.calls
    ensures PersistOk(h, s)
  {
    var pc := h.calls[s];
    InvAt(h, s);
    if Persists(pc).Some? {
      var c := Persists(pc).value.id;
      assert Subject(pc) == Some(c) && Of(h, c, s);
      assert CellLaw(c, s, CellOf(h, c), PodOf(h, s), Get(h.calls, s));
    }
  }

  lemma AdvanceContainerMoves(h: Host, s: SandboxId, ch: Choice, c: ContainerId)
    requires Enabled(h, Advance(s, ch)) && PersistOk(h, s)
    ensures ContainerMoves(h, AdvanceCall(h, s, ch), c) && NoNewcomer(h, AdvanceCall(h, s, ch), c)
  {
    var pc := h.calls[s];
    NextCreates(Cached(h, pc), Get(h.cacheS, s), s, pc, ch);
    hide NextPc, NextCacheC, NextCacheS, NextProcs;
  }

  lemma NextCreates(rec: Option<ContainerRecord>, sb: Option<SandboxRecord>, s: SandboxId, pc: Pc, ch: Choice)
    ensures var next := NextPc(rec, sb, s, pc, ch);
            next.Some? && next.value.CreatePersist? ==> pc.CreateGate? && next.value.snap.id == ch.newId
    ensures pc.CreatePersist? ==> NextPc(rec, sb, s, pc, ch) == Some(CreateInsert(pc.snap))
  {
  }

  // A section that begins no first persist of this pod.
  lemma NextIsNoFirstPersist(h: Host, s: SandboxId, ch: Choice, t: SandboxId)
    requires s in h.calls && CanAdvance(h, s, h.calls[s], ch)
    ensures var h' := AdvanceCall(h, s, ch);
            t in h'.calls && h'.calls[t].RunPersist? ==> Get(h.calls, t) == Get(h'.calls, t)
  {
    hide NextDiskC, NextDiskS, NextCacheC, NextCacheS, NextProcs, NextLaunches, CanAdvance, Cached;
  }

  lemma AdvanceSandboxMoves(h: Host, s: SandboxId, ch: Choice, t: SandboxId)
    requires Enabled(h, Advance(s, ch)) && PodLaw(s, PodOf(h, s), Get(h.calls, s))
    ensures SandboxMoves(h, AdvanceCall(h, s, ch), t)
  {
    NextIsNoFirstPersist(h, s, ch, t);
    hide NextPc, NextDiskC, NextCacheC, NextCacheS, NextProcs, NextLaunches, CanAdvance, Cached;
  }

  lemma AdvanceContainersMove(h: Host, s: SandboxId, ch: Choice)
    requires Enabled(h, Advance(s, ch)) && PersistOk(h, s)
    ensures forall c :: ContainerMoves(h, AdvanceCall(h, s, ch), c) && NoNewcomer(h, AdvanceCall(h, s, ch), c)
  {
    forall c ensures ContainerMoves(h, AdvanceCall(h, s, ch), c) && NoNewcomer(h, AdvanceCall(h, s, ch), c) {
      AdvanceContainerMoves(h, s, ch, c);
    }
  }

  lemma AdvanceSandboxesMove(h: Host, s: SandboxId, ch: Choice)
    requires Enabled(h, Advance(s, ch)) && PodLaw(s, PodOf(h, s), Get(h.calls, s))
    ensures forall t :: SandboxMoves(h, AdvanceCall(h, s, ch), t)
  {
    forall t ensures SandboxMoves(h, AdvanceCall(h, s, ch), t) {
      AdvanceSandboxMoves(h, s, ch, t);
    }
  }

  lemma AdvanceOwners(h: Host, s: SandboxId, ch: Choice)
    requires Enabled(h, Advance(s, ch))
    ensures forall c | c in h.owner :: Get(AdvanceCall(h, s, ch).owner, c) == Some(h.owner[c])
  {
  }

  lemma AdvanceMoves(h: Host, s: SandboxId, ch: Choice)
    requires Enabled(h, Advance(s, ch)) && PersistOk(h, s)
    ensures Moves(h, AdvanceCall(h, s, ch))
  {
    AdvanceOwners(h, s, ch);
    AdvanceContainersMove(h, s, ch);
    AdvanceSandboxesMove(h, s, ch);
    var h' := AdvanceCall(h, s, ch);
    forall c | c in h.owner ensures c in h'.owner && h'.owner[c] == h.owner[c] {
      assert Get(h'.owner, c) == Some(h.owner[c]);
    }
  }

  // The reaper writes only over the record it read, Running, from the cache.
  lemma RecordMoves(h: Host, c: ContainerId)
    requires Enabled(h, ReaperRecords(c))
    requires c in h.cacheC && h.cacheC[c].state == Running ==> Get(h.diskC, c) == Some(h.cacheC[c])
    ensures Moves(h, RecordExit(h, c))
  {
  }

  lemma ReaperCell(c: ContainerId, s: SandboxId, cell: Cell, pod: Pod, pc: Option<Pc>)
    requires CellLaw(c, s, cell, pod, pc) && cell.reaper.Some? && CachedAs(cell, Running)
    ensures cell.disk == cell.cache
  {
  }

  lemma ReaperSeesDisk(h: Host, c: ContainerId)
    requires Inv(h) && c in h.reapers && c in h.cacheC && h.cacheC[c].state == Running
    ensures CellOf(h, c).disk == CellOf(h, c).cache
  {
    LiveCell(h, c);
    ReaperCell(c, h.owner[c], CellOf(h, c), PodOf(h, h.owner[c]), Get(h.calls, h.owner[c]));
  }

  lemma LoadMoves(h: Host, c: ContainerId, now: int)
    requires Enabled(h, LoadContainer(c, now)) && h.diskC[c].id == c && h.diskC[c].state != Unknown
    ensures Moves(h, Apply(h, LoadContainer(c, now)))
  {
  }

  // A step that leaves the disk alone and starts no first persist of an existing id.
  ghost predicate Quiet(h: Host, h': Host) {
    && h'.diskC == h.diskC && h'.diskS == h.diskS && h'.owner == h.owner && h.pods <= h'.pods
    && forall s | s in h.pods && s in h'.calls && (h'.calls[s].CreatePersist? || h'.calls[s].RunPersist?) ::
         s in h.calls && h.calls[s] == h'.calls[s]
  }

  lemma QuietMoves(h: Host, h': Host)
    requires Quiet(h, h') && forall c | c in h.owner :: h.owner[c] in h.pods
    ensures Moves(h, h')
  {
  }

  lemma BeginIsQuiet(h: Host, step: Step)
    requires Enabled(h, step) && CallOf(h, step).Some? && !step.Advance?
    ensures Quiet(h, Apply(h, step))
  {
    hide AdvanceCall, RecordExit, Recovered, CanAdvance;
  }

  lemma EngineIsQuiet(h: Host, step: Step)
    requires Enabled(h, step) && (step.EngineWrites? || step.EngineExecs? || step.EngineDies?)
    ensures Quiet(h, Apply(h, step))
  {
    hide AdvanceCall, RecordExit, Recovered, CanAdvance;
  }

  lemma SameCallsAreQuiet(h: Host, h': Host)
    requires h'.diskC == h.diskC && h'.diskS == h.diskS && h'.owner == h.owner && h'.pods == h.pods
    requires h'.calls == h.calls
    ensures Quiet(h, h')
  {
  }

  lemma RecordStays(h: Host, c: ContainerId)
    requires c in h.reapers && h.reapers[c].Holding?
    ensures var h' := RecordExit(h, c); h' == h.(reapers := h'.reapers, cacheC := h'.cacheC, diskC := h'.diskC)
  {
    hide WithExit;
  }

  lemma ProcessStays(h: Host, step: Step)
    requires Enabled(h, step) && (step.ProcExits? || step.InitReaps? || step.ForeignSpawn? || step.ReaperWakes?)
    ensures Apply(h, step) == h.(reapers := Apply(h, step).reapers, procs := Apply(h, step).procs)
  {
    if !step.ReaperWakes? {
      ProcessViews(h, step);
    }
  }

  lemma ProcessIsQuiet(h: Host, step: Step)
    requires Enabled(h, step) && (step.ProcExits? || step.InitReaps? || step.ForeignSpawn? || step.ReaperWakes?)
    ensures Quiet(h, Apply(h, step))
  {
    hide Quiet, Apply, Enabled;
    ProcessStays(h, step);
    SameCallsAreQuiet(h, Apply(h, step));
  }

  lemma RestartIsQuiet(h: Host, step: Step)
    requires Enabled(h, step) && (step.Crash? || step.Boot? || step.LoadSandboxes?)
    ensures Quiet(h, Apply(h, step))
  {
    hide AdvanceCall, RecordExit, Recovered, CanAdvance;
  }

  lemma OwnersHavePods(h: Host)
    requires Inv(h)
    ensures h.diskC.Keys <= h.owner.Keys && forall c | c in h.owner :: h.owner[c] in h.pods
  {
  }

  lemma BeginHasCall(h: Host, step: Step)
    requires Enabled(h, step) && (step.BeginStart? || step.BeginStop? || step.BeginRemove?)
    ensures CallOf(h, step).Some?
  {
  }

  lemma OthersAreQuiet(h: Host, step: Step)
    requires Enabled(h, step) && !step.Advance? && !step.ReaperRecords? && !step.LoadContainer?
    ensures Quiet(h, Apply(h, step))
  {
    hide Quiet, Enabled, Apply;
    if step.EngineWrites? || step.EngineExecs? || step.EngineDies? {
      EngineIsQuiet(h, step);
    } else if step.Crash? || step.Boot? || step.LoadSandboxes? {
      RestartIsQuiet(h, step);
    } else if step.ProcExits? || step.InitReaps? || step.ForeignSpawn? || step.ReaperWakes? {
      ProcessIsQuiet(h, step);
    } else {
      if step.BeginStart? || step.BeginStop? || step.BeginRemove? {
        BeginHasCall(h, step);
      }
      BeginIsQuiet(h, step);
    }
  }

  lemma ReaperMoves(h: Host, c: ContainerId)
    requires Inv(h) && Enabled(h, ReaperRecords(c))
    ensures Moves(h, Apply(h, ReaperRecords(c)))
  {
    hide Inv, Moves, RecordExit;
    if c in h.cacheC && h.cacheC[c].state == Running {
      ReaperSeesDisk(h, c);
    }
    RecordMoves(h, c);
  }

  lemma StepMoves(h: Host, step: Step)
    requires Inv(h) && Enabled(h, step)
    ensures Moves(h, Apply(h, step))
  {
    if step.Advance? {
      hide Inv, Moves, AdvanceCall, CanAdvance;
      PersistIsOk(h, step.s);
      AdvanceMoves(h, step.s, step.ch);
    } else if step.ReaperRecords? {
      hide Inv, Moves, Apply, Enabled;
      ReaperMoves(h, step.c);
    } else if step.LoadContainer? {
      hide Inv, Moves, Apply, Recovered;
      StoredRecord(h, step.c);
      LoadMoves(h, step.c, step.now);
    } else {
      OwnersHavePods(h);
      hide Inv, Moves, Quiet, Apply, Enabled;
      OthersAreQuiet(h, step);
      QuietMoves(h, Apply(h, step));
    }
  }

  lemma {:induction false} RunMoves(hs: seq<Host>, steps: seq<Step>, i: nat, j: nat)
    requires IsRun(hs, steps) && i <= j < |hs|
    ensures Moves(hs[i], hs[j])
    decreases j
  {
    hide Inv, Moves, Apply, Enabled;
    if i == j {
      MovesRefl(hs[i]);
    } else {
      RunMoves(hs, steps, i, j - 1);
      RunKeepsInv(hs, steps, j - 1);
      assert StepAt(hs, steps, j - 1);
      StepMoves(hs[j - 1], steps[j - 1]);
      OwnersHavePods(hs[j - 1]);
      MovesTrans(hs[i], hs[j - 1], hs[j]);
    }
  }

  // ── Theorems ──────────────────────────────────────────────────────────────

  // What the invariant says of one container, without its control state.
  ghost predicate CellFacts(h: Host, c: ContainerId) {
    && (c in h.diskC ==>
          var rec := h.diskC[c];
          && Existing(h, c) && rec.id == c
          && rec.sandbox == h.owner[c] && rec.sandbox in h.diskS && rec.state != Unknown
          && (rec.state == Running && HasNetns(Get(h.diskS, rec.sandbox)) ==> rec.pid in Launched(h, c) && rec.pid > 0))
    && (c in h.cacheC ==> c in h.diskC)
  }

  lemma CellCached(c: ContainerId, s: SandboxId, cell: Cell, pod: Pod, pc: Option<Pc>)
    requires CellLaw(c, s, cell, pod, pc)
    ensures cell.cache.Some? ==> cell.disk.Some?
    ensures cell.disk.Some? && pc.Some? && pc.value.CreatePersist? ==> pc.value.snap.id != c
  {
  }

  lemma InvCellFacts(h: Host, c: ContainerId)
    requires Inv(h)
    ensures CellFacts(h, c)
  {
    if c in h.diskC {
      StoredRecord(h, c);
    }
    if h.phase.Up? && c in h.owner {
      LiveCell(h, c);
      CellCached(c, h.owner[c], CellOf(h, c), PodOf(h, h.owner[c]), Get(h.calls, h.owner[c]));
    }
  }

  lemma InvPodFacts(h: Host, s: SandboxId)
    requires Inv(h) && s in h.cacheS
    ensures s in h.diskS && (h.cacheS[s] == h.diskS[s] || h.cacheS[s].state == NotReady)
  {
    LivePod(h, s);
  }

  lemma RunFacts(hs: seq<Host>, steps: seq<Step>, i: nat, c: ContainerId)
    requires IsRun(hs, steps) && i < |hs|
    ensures CellFacts(hs[i], c)
  {
    RunKeepsInv(hs, steps, i);
    InvCellFacts(hs[i], c);
  }

  lemma RunPodFacts(hs: seq<Host>, steps: seq<Step>, i: nat, s: SandboxId)
    requires IsRun(hs, steps) && i < |hs| && s in hs[i].cacheS
    ensures s in hs[i].diskS && (hs[i].cacheS[s] == hs[i].diskS[s] || hs[i].cacheS[s].state == NotReady)
  {
    RunKeepsInv(hs, steps, i);
    InvPodFacts(hs[i], s);
  }

  // At every instant of every run, each stored container names a stored sandbox.
  lemma StoredContainersHaveTheirSandbox(hs: seq<Host>, steps: seq<Step>, i: nat, c: ContainerId)
    requires IsRun(hs, steps) && i < |hs| && c in hs[i].diskC
    ensures hs[i].diskC[c].id == c && hs[i].diskC[c].sandbox in hs[i].diskS
  {
    RunFacts(hs, steps, i, c);
  }

  // Created, Running, Exited, never back, across any crashes; an Exited record is final.
  lemma StoredStateOnlyAdvances(hs: seq<Host>, steps: seq<Step>, i: nat, j: nat, c: ContainerId)
    requires IsRun(hs, steps) && i <= j < |hs| && c in hs[i].diskC && c in hs[j].diskC
    ensures Rank(hs[i].diskC[c].state) <= Rank(hs[j].diskC[c].state) <= 2
    ensures hs[i].diskC[c].state == Exited ==> hs[j].diskC[c] == hs[i].diskC[c]
  {
    RunMoves(hs, steps, i, j);
    RunFacts(hs, steps, i, c);
    RunFacts(hs, steps, j, c);
    assert ContainerMoves(hs[i], hs[j], c);
  }

  // A step at which the call on pod s returns.
  predicate Returns(h: Host, step: Step, s: SandboxId) {
    step.Advance? && step.s == s && Enabled(h, step) && s !in AdvanceCall(h, s, step.ch).calls
  }

  predicate Removing(pc: Pc, c: ContainerId) {
    (pc.RmLook? || pc.RmUnlink?) && pc.cid == c
  }

  lemma RemoveReturnsGone(h: Host, step: Step, s: SandboxId, c: ContainerId)
    requires Returns(h, step, s) && Removing(h.calls[s], c)
    requires Of(h, c, s) && SyncLaw(CellOf(h, c), PendingOn(Get(h.calls, s), c))
    ensures c !in AdvanceCall(h, s, step.ch).diskC && Existing(AdvanceCall(h, s, step.ch), c)
  {
    var pc := h.calls[s];
    assert pc.RmLook? ==> Cached(h, pc).None?;
  }

  lemma RemovingSynced(h: Host, s: SandboxId, c: ContainerId)
    requires Inv(h) && s in h.calls && Removing(h.calls[s], c)
    ensures Of(h, c, s) && SyncLaw(CellOf(h, c), PendingOn(Get(h.calls, s), c))
  {
    assert CascadeLaw(h, s, h.calls[s]);
    assert Subject(h.calls[s]) == Some(c);
    LiveCell(h, c);
  }

  // No resurrection: after remove_container has returned, whether or not the wait in its
  // stop timed out, no reaper, call or recovery brings the record back.
  lemma RemovedStaysRemoved(hs: seq<Host>, steps: seq<Step>, i: nat, j: nat, s: SandboxId, c: ContainerId)
    requires IsRun(hs, steps) && i < j < |hs| && Returns(hs[i], steps[i], s) && Removing(hs[i].calls[s], c)
    ensures c !in hs[j].diskC && c !in hs[j].cacheC
  {
    assert Existing(hs[i + 1], c) && c !in hs[i + 1].diskC by {
      RunKeepsInv(hs, steps, i);
      RemovingSynced(hs[i], s, c);
      RemoveReturnsGone(hs[i], steps[i], s, c);
      assert StepAt(hs, steps, i);
    }
    RunMoves(hs, steps, i + 1, j);
    RunFacts(hs, steps, j, c);
    assert ContainerMoves(hs[i + 1], hs[j], c);
  }

  // Crash-only law: a pod with no call in flight has its records in cache as on disk.
  lemma QuiescentPodIsPersisted(hs: seq<Host>, steps: seq<Step>, i: nat, s: SandboxId)
    requires IsRun(hs, steps) && i < |hs| && hs[i].phase.Up? && s in hs[i].pods && s !in hs[i].calls
    ensures Get(hs[i].cacheS, s) == Get(hs[i].diskS, s)
    ensures forall c | Of(hs[i], c, s) :: Get(hs[i].cacheC, c) == Get(hs[i].diskC, c)
  {
    RunKeepsInv(hs, steps, i);
    LivePod(hs[i], s);
    forall c | Of(hs[i], c, s) ensures Get(hs[i].cacheC, c) == Get(hs[i].diskC, c) {
      LiveCell(hs[i], c);
    }
  }

  // In a pod with a pinned netns a container is recorded Running only after its readiness
  // pipe closed empty, and the workload has exec'd unless its engine died without a byte.
  lemma NsRunningMeansExecd(hs: seq<Host>, steps: seq<Step>, i: nat, c: ContainerId)
    requires IsRun(hs, steps) && i < |hs| && c in hs[i].diskC && hs[i].diskC[c].state == Running
    requires HasNetns(Get(hs[i].diskS, hs[i].diskC[c].sandbox))
    ensures hs[i].diskC[c].pid > 0
    ensures var l := Launch(c, hs[i].diskC[c].pid); l in hs[i].execd || l in hs[i].silent
  {
    RunFacts(hs, steps, i, c);
  }

  // Once stop_sandbox has returned the pod is never Ready again and gains no container.
  lemma StoppedSandboxStaysStopped(hs: seq<Host>, steps: seq<Step>, i: nat, j: nat, s: SandboxId)
    requires IsRun(hs, steps) && i < j < |hs| && Returns(hs[i], steps[i], s)
    requires hs[i].calls[s].StopSbLock? || hs[i].calls[s].StopSbPersist?
    ensures s in hs[j].diskS ==> hs[j].diskS[s].state == NotReady
    ensures s in hs[j].cacheS ==> hs[j].cacheS[s].state == NotReady
    ensures forall c | c in hs[j].diskC && hs[j].diskC[c].sandbox == s :: c in hs[i + 1].diskC
  {
    assert Closed(hs[i + 1], s) by {
      RunKeepsInv(hs, steps, i);
      InvAt(hs[i], s);
      StopReturnsClosed(hs[i], steps[i], s);
      assert StepAt(hs, steps, i);
    }
    RunMoves(hs, steps, i + 1, j);
    assert SandboxMoves(hs[i + 1], hs[j], s);
    if s in hs[j].cacheS {
      RunPodFacts(hs, steps, j, s);
    }
    forall c | c in hs[j].diskC && hs[j].diskC[c].sandbox == s ensures c in hs[i + 1].diskC {
      RunFacts(hs, steps, j, c);
      assert NoNewcomer(hs[i + 1], hs[j], c);
    }
  }

  lemma StopReturnsClosed(h: Host, step: Step, s: SandboxId)
    requires Returns(h, step, s) && (h.calls[s].StopSbLock? || h.calls[s].StopSbPersist?)
    requires s in h.pods && PodLaw(s, PodOf(h, s), Get(h.calls, s))
    ensures Closed(AdvanceCall(h, s, step.ch), s)
  {
  }

  predicate RemovingSandbox(pc: Pc) {
    pc.RmSbCollect? || pc.RmSbDrop? || pc.RmSbUnlink?
  }

  // However often crashes cut earlier attempts short, a remove_sandbox that returns leaves
  // neither the sandbox nor any of its containers, from then on.
  lemma RemovedSandboxIsGone(hs: seq<Host>, steps: seq<Step>, i: nat, j: nat, s: SandboxId)
    requires IsRun(hs, steps) && i < j < |hs| && Returns(hs[i], steps[i], s) && RemovingSandbox(hs[i].calls[s])
    ensures s !in hs[j].diskS && s !in hs[j].cacheS
    ensures forall c | c in hs[j].owner && hs[j].owner[c] == s :: c !in hs[j].diskC && c !in hs[j].cacheC
  {
    assert PodExisting(hs[i + 1], s) && s !in hs[i + 1].diskS by {
      RunKeepsInv(hs, steps, i);
      InvAt(hs[i], s);
      RemoveSandboxReturns(hs[i], steps[i], s);
      assert StepAt(hs, steps, i);
    }
    RunMoves(hs, steps, i + 1, j);
    assert SandboxMoves(hs[i + 1], hs[j], s);
    if s in hs[j].cacheS {
      RunPodFacts(hs, steps, j, s);
    }
    forall c | c in hs[j].owner && hs[j].owner[c] == s ensures c !in hs[j].diskC && c !in hs[j].cacheC {
      RunFacts(hs, steps, j, c);
    }
  }

  lemma RemoveSandboxReturns(h: Host, step: Step, s: SandboxId)
    requires Returns(h, step, s) && RemovingSandbox(h.calls[s]) && s in h.pods
    requires PodLaw(s, PodOf(h, s), Get(h.calls, s))
    ensures PodExisting(AdvanceCall(h, s, step.ch), s) && s !in AdvanceCall(h, s, step.ch).diskS
  {
  }

  // The status a reaper records is that of the process spawned for its own container.
  lemma ReaperWaitsForItsOwnChild(hs: seq<Host>, steps: seq<Step>, i: nat, c: ContainerId)
    requires IsRun(hs, steps) && i < |hs| && c in hs[i].reapers && hs[i].reapers[c].Waiting?
    ensures var pid := hs[i].reapers[c].pid; pid in hs[i].procs && hs[i].procs[pid].owner == Some(c)
  {
    RunKeepsInv(hs, steps, i);
    LiveCell(hs[i], c);
  }

  // The defensive branch of stop_container is never reached.
  lemma DefensiveStopIsDead(hs: seq<Host>, steps: seq<Step>, i: nat, s: SandboxId)
    requires IsRun(hs, steps) && i < |hs| && s in hs[i].calls
    ensures !hs[i].calls[s].StopDefensive? && !hs[i].calls[s].StopPersist?
  {
    RunKeepsInv(hs, steps, i);
    InvAt(hs[i], s);
    NoDefensiveStop(hs[i], s, hs[i].calls[s]);
  }

  lemma NoDefensiveStop(h: Host, s: SandboxId, pc: Pc)
    requires AtAll(h, s) && pc == h.calls[s]
    ensures !pc.StopDefensive? && !pc.StopPersist?
  {
    var oc := Subject(pc);
    assert oc.Some? ==> CellLaw(oc.value, s, CellOf(h, oc.value), PodOf(h, s), Get(h.calls, s));
  }

  // When `new` has finished, every Running container it re-adopted has a pid, and that pid
  // was alive when its record was read.
  lemma RecoveryReadoptsTheLiving(hs: seq<Host>, steps: seq<Step>, i: nat, c: ContainerId)
    requires IsRun(hs, steps) && i < |steps| && c in hs[i + 1].cacheC && hs[i + 1].cacheC[c].state == Running
    ensures steps[i] == LoadSandboxes ==> hs[i + 1].cacheC[c].pid > 0
    ensures steps[i].LoadContainer? && steps[i].c == c ==>
              hs[i + 1].cacheC[c].pid > 0 && hs[i + 1].cacheC[c].pid in hs[i].procs
  {
    assert StepAt(hs, steps, i);
    if steps[i].LoadContainer? && steps[i].c == c {
      RunFacts(hs, steps, i, c);
      LoadReads(hs[i], c, steps[i].now);
    } else if steps[i] == LoadSandboxes {
      RunKeepsInv(hs, steps, i);
    }
  }

  lemma LoadReads(h: Host, c: ContainerId, now: int)
    requires Enabled(h, LoadContainer(c, now)) && h.diskC[c].id == c
    ensures var rec := Apply(h, LoadContainer(c, now)).cacheC[c];
            rec.state == Running ==> rec.pid > 0 && rec.pid in h.procs
  {
  }
}
