/**
 What Running says about the workload of a container in a pinned network namespace: it has
 exec'd exactly when its engine has not died without a byte.
 */
module CriReadiness {
  import opened Options
  import opened CriState
  import opened CriSteps
  import opened CriInvariant
  import opened CriTheorems

  // ── How a launch ends its readiness wait ──────────────────────────────────

  // The launch whose pipe the call on pod s reads.
  function Awaited(h: Host, s: SandboxId): Launch
    requires Awaiting(h, s)
  {
    Launch(h.calls[s].cid, h.calls[s].pid)
  }

  // The two ways the pipe of launch l closes empty: its workload execs, or its engine dies.
  datatype Ending = Exec | SilentDeath

  predicate Ends(h: Host, step: Step, l: Launch, e: Ending) {
    match e
    case Exec => step.EngineExecs? && Awaiting(h, step.s) && Awaited(h, step.s) == l
    case SilentDeath =>
      step.EngineDies? && Awaiting(h, step.s) && Awaited(h, step.s) == l && h.calls[step.s].pipe.bytes == 0
  }

  // The step is the spawn that starts launch l.
  predicate Spawns(h: Host, step: Step, l: Launch) {
    step.Advance? && step.s in h.calls && h.calls[step.s].StartSpawn? && step.ch.ok
    && l == Launch(h.calls[step.s].cid, step.ch.pid)
  }

  function Ended(h: Host, e: Ending): set<Launch> {
    if e == Exec then h.execd else h.silent
  }

  // Launch l has ended this way, and has not been spawned again since.
  ghost predicate EndedBy(hs: seq<Host>, steps: seq<Step>, i: nat, l: Launch, e: Ending)
    requires i <= |steps| < |hs|
  {
    exists k: nat :: k < i && Ends(hs[k], steps[k], l, e) && NotSpawned(hs, steps, k + 1, i, l)
  }

  ghost predicate NotSpawned(hs: seq<Host>, steps: seq<Step>, k: nat, i: nat, l: Launch)
    requires i <= |steps| < |hs|
  {
    forall j: nat | k <= j < i :: !Spawns(hs[j], steps[j], l)
  }

  // The call a step begins does not start with a wait.
  lemma BeginLeavesWaits(h: Host, step: Step, s: SandboxId)
    requires Enabled(h, step) && !step.Advance? && CallOf(h, step) == Some(s)
    ensures var h' := Apply(h, step);
            && h'.execd == h.execd && h'.silent == h.silent
            && s in h'.calls && !h'.calls[s].StartAwait? && h'.calls - {s} == h.calls - {s}
  {
    hide AdvanceCall, CanAdvance, Recovered, RecordExit, CrashHost;
  }

  predicate LeavesWaits(h: Host, h': Host) {
    h'.execd == h.execd && h'.silent == h.silent && (h'.calls == h.calls || h'.calls == map[])
  }

  lemma ProcessLeavesWaits(h: Host, step: Step)
    requires Enabled(h, step) && (step.ProcExits? || step.InitReaps? || step.ForeignSpawn? || step.ReaperWakes?)
    ensures LeavesWaits(h, Apply(h, step))
  {
    hide Apply, Enabled;
    ProcessStays(h, step);
  }

  lemma RestartLeavesWaits(h: Host, step: Step)
    requires Enabled(h, step) && (step.Crash? || step.Boot? || step.LoadContainer? || step.LoadSandboxes?)
    ensures LeavesWaits(h, Apply(h, step))
  {
    hide Recovered;
  }

  lemma RecordLeavesWaits(h: Host, c: ContainerId)
    requires c in h.reapers && h.reapers[c].Holding?
    ensures LeavesWaits(h, RecordExit(h, c))
  {
    hide RecordExit;
    RecordStays(h, c);
  }

  lemma OthersLeaveWaits(h: Host, step: Step)
    requires Enabled(h, step) && CallOf(h, step).None?
    requires !step.EngineWrites? && !step.EngineExecs? && !step.EngineDies?
    ensures LeavesWaits(h, Apply(h, step))
  {
    hide LeavesWaits, AdvanceCall, CanAdvance, Recovered, RecordExit, CrashHost, Zombie, CanBegin, Awaiting;
    if step.ReaperRecords? {
      RecordLeavesWaits(h, step.c);
    } else if step.Crash? || step.Boot? || step.LoadContainer? || step.LoadSandboxes? {
      RestartLeavesWaits(h, step);
    } else {
      ProcessLeavesWaits(h, step);
    }
  }

  lemma AdvanceEnds(h: Host, s: SandboxId, ch: Choice, l: Launch, e: Ending)
    requires s in h.calls && CanAdvance(h, s, h.calls[s], ch)
    ensures l in Ended(AdvanceCall(h, s, ch), e) <==> l in Ended(h, e) && !Spawns(h, Advance(s, ch), l)
  {
    hide NextPc, NextDiskC, NextDiskS, NextCacheC, NextCacheS, NextProcs, CanAdvance, Cached;
  }

  lemma EngineEnds(h: Host, step: Step, l: Launch, e: Ending)
    requires Enabled(h, step) && (step.EngineWrites? || step.EngineExecs? || step.EngineDies?)
    ensures l in Ended(Apply(h, step), e) <==> Ends(h, step, l, e) || l in Ended(h, e)
  {
  }

  lemma StepEnds(h: Host, step: Step, l: Launch, e: Ending)
    requires Enabled(h, step)
    ensures l in Ended(Apply(h, step), e) <==> Ends(h, step, l, e) || (l in Ended(h, e) && !Spawns(h, step, l))
  {
    if step.Advance? {
      hide AdvanceCall, CanAdvance;
      AdvanceEnds(h, step.s, step.ch, l, e);
    } else {
      hide Apply, Enabled, CallOf;
      if step.EngineWrites? || step.EngineExecs? || step.EngineDies? {
        EngineEnds(h, step, l, e);
      } else if CallOf(h, step).Some? {
        BeginLeavesWaits(h, step, CallOf(h, step).value);
      } else {
        OthersLeaveWaits(h, step);
      }
    }
  }

  // The sets of the machine are what the steps say.
  lemma {:induction false} EndedIff(hs: seq<Host>, steps: seq<Step>, i: nat, l: Launch, e: Ending)
    requires IsRun(hs, steps) && i < |hs|
    ensures l in Ended(hs[i], e) <==> EndedBy(hs, steps, i, l, e)
  {
    hide Apply, Enabled, Ends, Spawns;
    if i > 0 {
      EndedIff(hs, steps, i - 1, l, e);
      assert StepAt(hs, steps, i - 1);
      StepEnds(hs[i - 1], steps[i - 1], l, e);
      if EndedBy(hs, steps, i, l, e) {
        var k: nat :| k < i && Ends(hs[k], steps[k], l, e) && NotSpawned(hs, steps, k + 1, i, l);
        if k < i - 1 {
          assert NotSpawned(hs, steps, k + 1, i - 1, l) && !Spawns(hs[i - 1], steps[i - 1], l);
        }
      }
      if Ends(hs[i - 1], steps[i - 1], l, e) {
        assert NotSpawned(hs, steps, i, i, l);
      } else if l in Ended(hs[i], e) {
        var k: nat :| k < i - 1 && Ends(hs[k], steps[k], l, e) && NotSpawned(hs, steps, k + 1, i - 1, l);
        assert NotSpawned(hs, steps, k + 1, i, l);
      }
    }
  }

  // ── A launch ends at most one way ─────────────────────────────────────────

  // No launch has ended both ways, and one still awaited has not ended.
  ghost predicate Apart(h: Host) {
    h.execd !! h.silent && forall s | Awaiting(h, s) :: Awaited(h, s) !in h.execd + h.silent
  }

  // Calls in flight work on containers of their own pods.
  lemma AwaitedApart(h: Host, s: SandboxId, s': SandboxId)
    requires Inv(h) && Awaiting(h, s) && Awaiting(h, s') && s != s'
    ensures Awaited(h, s) != Awaited(h, s')
  {
    hide CellLaw, PodLaw, DiskInv;
    assert CascadeLaw(h, s, h.calls[s]) && CascadeLaw(h, s', h.calls[s']);
  }

  lemma EngineKeepsApart(h: Host, step: Step)
    requires Inv(h) && Apart(h) && Enabled(h, step) && (step.EngineWrites? || step.EngineExecs? || step.EngineDies?)
    ensures Apart(Apply(h, step))
  {
    hide Inv;
    var s, h' := step.s, Apply(h, step);
    forall s' | Awaiting(h', s') ensures Awaited(h', s') !in h'.execd + h'.silent {
      assert Awaiting(h, s') && Awaited(h', s') == Awaited(h, s');
      if s' != s {
        AwaitedApart(h, s, s');
      }
    }
  }

  // Only a spawn starts a wait.
  lemma WaitStarts(h: Host, s: SandboxId, ch: Choice)
    requires s in h.calls && CanAdvance(h, s, h.calls[s], ch) && Awaiting(AdvanceCall(h, s, ch), s)
    ensures Spawns(h, Advance(s, ch), Awaited(AdvanceCall(h, s, ch), s))
  {
    hide NextDiskC, NextDiskS, NextCacheC, NextCacheS, NextProcs, CanAdvance, NextLaunches, Cached;
  }

  lemma AdvanceKeepsApart(h: Host, s: SandboxId, ch: Choice)
    requires s in h.calls && CanAdvance(h, s, h.calls[s], ch) && Apart(h)
    ensures Apart(AdvanceCall(h, s, ch))
  {
    hide NextPc, NextDiskC, NextDiskS, NextCacheC, NextCacheS, NextProcs, CanAdvance, Cached;
    var h' := AdvanceCall(h, s, ch);
    forall s' | Awaiting(h', s') ensures Awaited(h', s') !in h'.execd + h'.silent {
      if s' == s {
        WaitStarts(h, s, ch);
      } else {
        assert Awaiting(h, s') && Awaited(h', s') == Awaited(h, s');
      }
    }
  }

  lemma FewerWaits(h: Host, h': Host)
    requires Apart(h) && h'.execd == h.execd && h'.silent == h.silent
    requires forall s | Awaiting(h', s) :: s in h.calls && h.calls[s] == h'.calls[s]
    ensures Apart(h')
  {
    forall s | Awaiting(h', s) ensures Awaited(h', s) !in h'.execd + h'.silent {
      assert Awaiting(h, s);
    }
  }

  lemma NoneApart()
    ensures Apart(EMPTY_HOME)
  {
  }

  lemma {:induction false} RunApart(hs: seq<Host>, steps: seq<Step>, i: nat)
    requires IsRun(hs, steps) && i < |hs|
    ensures Apart(hs[i])
  {
    hide Inv, Apply, Enabled, Apart;
    if i == 0 {
      NoneApart();
    } else {
      RunApart(hs, steps, i - 1);
      RunKeepsInv(hs, steps, i - 1);
      assert StepAt(hs, steps, i - 1);
      StepKeepsApart(hs[i - 1], steps[i - 1]);
    }
  }

  lemma QuietKeepsApart(h: Host, step: Step)
    requires Apart(h) && Enabled(h, step) && !step.Advance?
    requires !step.EngineWrites? && !step.EngineExecs? && !step.EngineDies?
    ensures Apart(Apply(h, step))
  {
    hide Apart, Apply, Enabled, CallOf;
    var h' := Apply(h, step);
    if CallOf(h, step).Some? {
      var s := CallOf(h, step).value;
      BeginLeavesWaits(h, step, s);
      forall s' | Awaiting(h', s') ensures s' in h.calls && h.calls[s'] == h'.calls[s'] {
        assert s' in h'.calls - {s} && (h'.calls - {s})[s'] == (h.calls - {s})[s'];
      }
    } else {
      OthersLeaveWaits(h, step);
    }
    FewerWaits(h, h');
  }

  lemma StepKeepsApart(h: Host, step: Step)
    requires Inv(h) && Apart(h) && Enabled(h, step)
    ensures Apart(Apply(h, step))
  {
    hide Inv, Apart, AdvanceCall, CanAdvance, RecordExit, Recovered, Awaiting, CanBegin;
    if step.Advance? {
      AdvanceKeepsApart(h, step.s, step.ch);
    } else if step.EngineWrites? || step.EngineExecs? || step.EngineDies? {
      EngineKeepsApart(h, step);
    } else {
      QuietKeepsApart(h, step);
    }
  }

  // ── What Running says ─────────────────────────────────────────────────────

  // A container of a pod with a pinned namespace that is stored Running has exec'd, since it
  // was last spawned, if and only if its engine has not died without a byte since then.
  lemma NsRunningExecdIff(hs: seq<Host>, steps: seq<Step>, i: nat, c: ContainerId)
    requires IsRun(hs, steps) && i < |hs| && c in hs[i].diskC && hs[i].diskC[c].state == Running
    requires HasNetns(Get(hs[i].diskS, hs[i].diskC[c].sandbox))
    ensures var l := Launch(c, hs[i].diskC[c].pid);
            && (EndedBy(hs, steps, i, l, Exec) <==> !EndedBy(hs, steps, i, l, SilentDeath))
            && (l in hs[i].execd <==> l !in hs[i].silent)
  {
    hide EndedBy, HasNetns;
    var l := Launch(c, hs[i].diskC[c].pid);
    NsRunningMeansExecd(hs, steps, i, c);
    RunApart(hs, steps, i);
    EndedIff(hs, steps, i, l, Exec);
    EndedIff(hs, steps, i, l, SilentDeath);
  }

  // The documented promise, for a container whose engine reports its failures.
  lemma NsRunningHasExecd(hs: seq<Host>, steps: seq<Step>, i: nat, c: ContainerId)
    requires IsRun(hs, steps) && i < |hs| && c in hs[i].diskC && hs[i].diskC[c].state == Running
    requires HasNetns(Get(hs[i].diskS, hs[i].diskC[c].sandbox))
    requires forall k: nat | k < i :: !Ends(hs[k], steps[k], Launch(c, hs[i].diskC[c].pid), SilentDeath)
    ensures EndedBy(hs, steps, i, Launch(c, hs[i].diskC[c].pid), Exec)
  {
    hide IsRun, Ends;
    NsRunningExecdIff(hs, steps, i, c);
  }
}
