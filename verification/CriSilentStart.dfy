/**
 A run on which a container of a pinned network namespace is stored Running though its
 workload never exec'd: one pod, one container, one engine that dies without a byte.
 */
module CriSilentStart {
  import opened Options
  import opened CriState
  import opened CriSteps
  import opened CriTheorems
  import opened CriReadiness

  const POD := SandboxId("sb-1")
  const CTR := ContainerId("ct-1")
  const PINNED := SandboxRecord(POD, "", SandboxState.Ready, 0, None, Some("/run/netns/sb-1"))
  const MADE := NewContainer(CTR, POD, "", 0)
  const INTENDED := WithIntent(MADE, true, 0)
  const STARTED := WithPid(INTENDED, 7, true)
  const ANY := Choice(0, true, CTR, 7, Readable, "", [])

  // The host of one pod and one container: what is stored and cached of the container and
  // of the pod, where the call stands, whether the process exists and its engine has died.
  datatype Scene = Scene(
    disk: Option<ContainerRecord>, cache: Option<ContainerRecord>, stored: bool, cached: bool, owned: bool,
    pc: Option<Pc>, spawned: bool, died: bool)

  function HostOf(g: Scene): Host {
    Host(if g.disk.Some? then map[CTR := g.disk.value] else map[], if g.stored then map[POD := PINNED] else map[],
         if g.cache.Some? then map[CTR := g.cache.value] else map[], if g.cached then map[POD := PINNED] else map[],
         Up, if g.pc.Some? then map[POD := g.pc.value] else map[], map[],
         if g.spawned then map[7 := Proc(Some(CTR), true, None)] else map[],
         if g.owned then map[CTR := POD] else map[], {POD}, {}, if g.died then {Launch(CTR, 7)} else {})
  }

  // Where the call goes from here.
  function NextOf(g: Scene, pc: Pc): Option<Pc> {
    NextPc(if Subject(pc).Some? then g.cache else None, if g.cached then Some(PINNED) else None, POD, pc, ANY)
  }

  // The sections this run goes through, each working on this pod and this container.
  predicate Playable(g: Scene, pc: Pc) {
    && g.pc == Some(pc) && (InStart(pc) || InCreate(pc) || pc == RunPersist(PINNED) || pc == RunInsert(PINNED))
    && !pc.StartReap? && !pc.StartReaper? && (Subject(pc).Some? ==> Subject(pc) == Some(CTR))
    && (pc.CreateGate? ==> !g.owned) && (pc.StartSpawn? ==> !g.spawned && !g.died) && (pc.StartAwait? ==> !pc.pipe.open)
  }

  // One section, scene by scene.
  function Play(g: Scene, pc: Pc): Scene {
    var next := NextOf(g, pc);
    var edited := if next.Some? && !next.value.CreatePersist? then Persists(next.value) else None;
    Scene(if Persists(pc).Some? then Persists(pc) else g.disk,
          if pc.CreateInsert? then Some(pc.snap) else if edited.Some? then edited else g.cache,
          g.stored || pc.RunPersist?, g.cached || pc.RunInsert?,
          g.owned || next == Some(CreatePersist(MADE)), next, g.spawned || pc.StartSpawn?, g.died)
  }

  lemma Looks(g: Scene, pc: Pc)
    requires Subject(pc).Some? ==> Subject(pc) == Some(CTR)
    ensures NextPc(Cached(HostOf(g), pc), Get(HostOf(g).cacheS, POD), POD, pc, ANY) == NextOf(g, pc)
  {
    hide NextPc;
  }

  // The call stays with this pod and this container.
  predicate StaysHere(next: Option<Pc>) {
    next.Some? ==>
      && (Subject(next.value).Some? ==> Subject(next.value) == Some(CTR))
      && (next.value.CreatePersist? ==> next.value == CreatePersist(MADE))
      && !next.value.StopSbPersist? && !next.value.RmSbUnlink?
  }

  lemma PodStores(g: Scene, pc: Pc)
    requires Playable(g, pc) && StaysHere(NextOf(g, pc))
    ensures var h, h', next := HostOf(g), HostOf(Play(g, pc)), NextOf(g, pc);
            NextDiskS(h.diskS, POD, pc) == h'.diskS && NextCacheS(h.cacheS, POD, pc, next) == h'.cacheS
  {
    hide NextOf;
  }

  lemma ContainerStores(g: Scene, pc: Pc)
    requires Playable(g, pc) && StaysHere(NextOf(g, pc))
    ensures var h, h', next := HostOf(g), HostOf(Play(g, pc)), NextOf(g, pc);
            NextDiskC(h.diskC, pc) == h'.diskC && NextCacheC(h.cacheC, pc, next) == h'.cacheC
  {
    hide NextOf;
  }

  lemma Processes(g: Scene, pc: Pc)
    requires Playable(g, pc) && StaysHere(NextOf(g, pc))
    ensures var h, h', next := HostOf(g), HostOf(Play(g, pc)), NextOf(g, pc);
            && NextProcs(h.procs, pc, ANY) == h'.procs && NextLaunches(h.execd, pc, ANY) == h'.execd
            && NextLaunches(h.silent, pc, ANY) == h'.silent
            && h'.owner == (if next.Some? && next.value.CreatePersist? then h.owner[CTR := POD] else h.owner)
            && (if next.Some? then h.calls[POD := next.value] else h.calls - {POD}) == h'.calls
  {
    hide NextOf;
  }

  lemma Section(g: Scene, pc: Pc)
    requires Playable(g, pc) && StaysHere(NextOf(g, pc))
    ensures Enabled(HostOf(g), Advance(POD, ANY))
    ensures Apply(HostOf(g), Advance(POD, ANY)) == HostOf(Play(g, pc))
  {
    Looks(g, pc);
    PodStores(g, pc);
    ContainerStores(g, pc);
    Processes(g, pc);
    hide NextPc, NextOf, Cached, NextDiskC, NextDiskS, NextCacheC, NextCacheS, NextProcs, NextLaunches, Play;
  }

  function SceneAt(k: nat): Scene {
    if k <= 3 then Scene(None, None, false, false, false, Some(RunPersist(PINNED)), false, false)
    else if k == 4 then Scene(None, None, true, false, false, Some(RunInsert(PINNED)), false, false)
    else if k == 5 then Scene(None, None, true, true, false, None, false, false)
    else if k == 6 then Scene(None, None, true, true, false, Some(CreateGate("")), false, false)
    else if k == 7 then Scene(None, None, true, true, true, Some(CreatePersist(MADE)), false, false)
    else if k == 8 then Scene(Some(MADE), None, true, true, true, Some(CreateInsert(MADE)), false, false)
    else if k == 9 then Scene(Some(MADE), Some(MADE), true, true, true, None, false, false)
    else Scene(Some(if k < 13 then MADE else if k < 18 then INTENDED else STARTED),
               Some(if k < 12 then MADE else if k < 17 then INTENDED else STARTED),
               true, true, true, Some(StartAt(k)), k > 13, k > 14)
  }

  function StartAt(k: nat): Pc {
    if k == 10 then StartCheck(CTR)
    else if k == 11 then StartIntent(CTR, true)
    else if k == 12 then StartPersistIntent(INTENDED, true)
    else if k == 13 then StartSpawn(CTR, true)
    else if k == 14 then StartAwait(CTR, 7, Pipe(0, true))
    else if k == 15 then StartAwait(CTR, 7, Pipe(0, false))
    else if k == 16 then StartRun(CTR, 7, true)
    else if k == 17 then StartPersistRun(STARTED, 7)
    else StartReaper(CTR, 7)
  }

  function HostAt(k: nat): Host {
    if k == 0 then EMPTY_HOME
    else if k == 1 then EMPTY_HOME.(phase := Loading({}))
    else if k == 2 then EMPTY_HOME.(phase := Up)
    else HostOf(SceneAt(k))
  }

  function StepOf(k: nat): Step {
    if k == 0 then Boot
    else if k == 1 then LoadSandboxes
    else if k == 2 then BeginRunSandbox(PINNED)
    else if k == 5 then BeginCreate(POD, "")
    else if k == 9 then BeginStart(CTR)
    else if k == 14 then EngineDies(POD)
    else Advance(POD, ANY)
  }

  ghost predicate Goes(k: nat) {
    Enabled(HostAt(k), StepOf(k)) && Apply(HostAt(k), StepOf(k)) == HostAt(k + 1)
  }

  ghost predicate Plays(k: nat) {
    && SceneAt(k).pc.Some? && Playable(SceneAt(k), SceneAt(k).pc.value)
    && SceneAt(k + 1) == Play(SceneAt(k), SceneAt(k).pc.value)
    && NextOf(SceneAt(k), SceneAt(k).pc.value) == SceneAt(k + 1).pc && StaysHere(SceneAt(k + 1).pc)
  }

  lemma PodPlays(k: nat)
    requires k < 10 && StepOf(k).Advance?
    ensures Plays(k)
  {
  }

  lemma StartPlays(k: nat)
    requires 10 <= k < 14
    ensures Plays(k)
  {
    hide SandboxNext, CreateNext, StopNext, RemoveNext;
  }

  lemma WaitPlays(k: nat)
    requires 15 <= k < 18
    ensures Plays(k)
  {
    hide SandboxNext, CreateNext, StopNext, RemoveNext;
  }

  lemma Sections(k: nat)
    requires k < 18 && StepOf(k).Advance?
    ensures Goes(k)
  {
    hide Apply, Enabled, Playable, Play, NextOf, HostOf, StaysHere, SceneAt;
    if k < 10 {
      PodPlays(k);
    } else if k < 14 {
      StartPlays(k);
    } else {
      WaitPlays(k);
    }
    Section(SceneAt(k), SceneAt(k).pc.value);
  }

  lemma Opens()
    ensures Goes(0) && Goes(1) && Goes(2)
  {
    assert EMPTY_HOME.diskC.Keys == {};
  }

  lemma Begins()
    ensures Goes(5) && Goes(9)
  {
  }

  lemma Dies()
    ensures Goes(14)
  {
  }

  lemma AllGo(k: nat)
    requires k < 18
    ensures Goes(k)
  {
    if StepOf(k).Advance? {
      hide *;
      Sections(k);
    } else {
      hide Goes;
      Opens();
      Begins();
      Dies();
    }
  }

  // A run that ends with a container stored Running in a pod with a pinned namespace, though
  // its engine died before exec: an engine that writes nothing is taken for one that exec'd.
  lemma RunningCanBeFalse()
    ensures var hs := seq(19, k requires 0 <= k < 19 => HostAt(k));
            var steps := seq(18, k requires 0 <= k < 18 => StepOf(k));
            && IsRun(hs, steps) && CTR in hs[18].diskC && hs[18].diskC[CTR].state == Running
            && HasNetns(Get(hs[18].diskS, POD)) && hs[18].diskC[CTR].pid == 7
            && !EndedBy(hs, steps, 18, Launch(CTR, 7), Exec) && EndedBy(hs, steps, 18, Launch(CTR, 7), SilentDeath)
  {
    var hs := seq(19, k requires 0 <= k < 19 => HostAt(k));
    var steps := seq(18, k requires 0 <= k < 18 => StepOf(k));
    forall k: nat | k < 18 ensures StepAt(hs, steps, k) {
      hide HostAt, StepOf, Apply, Enabled;
      AllGo(k);
    }
    hide Apply, Enabled, EndedBy;
    assert hs[0] == HostAt(0) && hs[18] == HostAt(18);
    EndedIff(hs, steps, 18, Launch(CTR, 7), Exec);
    EndedIff(hs, steps, 18, Launch(CTR, 7), SilentDeath);
  }
}
