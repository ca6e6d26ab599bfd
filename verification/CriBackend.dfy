/**
 The backend object itself: each mutating call as the code runs it, lock section by lock
 section, with everything else on the host free to move before each of them. `Valid` ties
 the object to a run of the step machine from an empty home, so the theorems about runs
 are theorems about these methods.
 */
module CriBackend {
  import opened Options
  import opened CriState
  import opened CriSteps
  import opened CriInvariant
  import opened CriTheorems
  import opened CriPreserve
  import opened CriInterference

  // How a call ends for its client.
  datatype Outcome =
    | Done
    | InvalidArgument
    | NotFound
    | FailedPrecondition
    | NetworkFailed
    | PlanFailed
    | StartFailed(code: int, reason: string)

  // The ways a start can fail once it has recorded its intent.
  predicate StartFailure(code: int, reason: string) {
    (code == -1 && (reason == "spawn-failed" || reason == "start-timeout")) || (code == 127 && reason == "exec-failed")
  }

  // What recovery may make of a stored record: a Running one whose process is gone, or that
  // never got a pid, becomes a lost exit; anything else comes back as it was.
  predicate Reconciled(was: ContainerRecord, rec: ContainerRecord) {
    || rec == was
    || (was.state == Running && rec == WithExit(was, -1, rec.reason, rec.finishedAt)
        && rec.reason == if was.pid > 0 then "lost-exit-reaped-elsewhere" else "lost-start-window")
  }

  // A section that asks nothing of the environment.
  const QUIETLY := Choice(0, true, ContainerId(""), 0, TimedOut, "", [])

  class LightrBackend {
    // On disk, one file per record.
    var containersDir: map<ContainerId, ContainerRecord>
    var sandboxesDir: map<SandboxId, SandboxRecord>
    // The cache, behind one mutex.
    var containers: map<ContainerId, ContainerRecord>
    var sandboxes: map<SandboxId, SandboxRecord>
    // The rest of the host: where each pod's call stands, reaper threads, processes.
    var phase: Phase
    var calls: map<SandboxId, Pc>
    var reapers: map<ContainerId, Reaper>
    var procs: map<nat, Proc>
    var owner: map<ContainerId, SandboxId>
    var pods: set<SandboxId>
    var execd: set<Launch>
    var silent: set<Launch>
    // Every state this home has been through, and the steps between them.
    ghost var run: seq<Host>
    ghost var steps: seq<Step>

    function World(): Host
      reads this
    {
      Host(containersDir, sandboxesDir, containers, sandboxes, phase, calls, reapers, procs, owner, pods, execd, silent)
    }

    ghost predicate OnRun()
      reads this
    {
      IsRun(run, steps) && run[|steps|] == World()
    }

    ghost predicate Valid()
      reads this
    {
      OnRun() && phase.Up?
    }

    // The state just left behind is one step of the machine away from the present one.
    ghost method Did(step: Step)
      requires IsRun(run, steps) && Enabled(run[|steps|], step) && World() == Apply(run[|steps|], step)
      modifies `run, `steps
      ensures OnRun() && run == old(run) + [World()] && steps == old(steps) + [step]
    {
      run := run + [World()];
      steps := steps + [step];
      forall i: nat | i < |steps| ensures StepAt(run, steps, i) {
        if i < |steps| - 1 {
          assert StepAt(old(run), old(steps), i);
        }
      }
    }

    // The fields now hold what the section at `pc` of the call on s makes of h, `calls` apart.
    ghost predicate Sectioned(h: Host, s: SandboxId, pc: Pc, next: Option<Pc>, ch: Choice)
      reads this
    {
      && next == NextPc(Cached(h, pc), Get(h.cacheS, s), s, pc, ch)
      && containersDir == NextDiskC(h.diskC, pc) && sandboxesDir == NextDiskS(h.diskS, s, pc)
      && containers == NextCacheC(h.cacheC, pc, next) && sandboxes == NextCacheS(h.cacheS, s, pc, next)
      && reapers == (if pc.StartReaper? then h.reapers[pc.cid := Waiting(pc.pid)] else h.reapers)
      && procs == NextProcs(h.procs, pc, ch)
      && owner == (if next.Some? && next.value.CreatePersist? then h.owner[next.value.snap.id := s] else h.owner)
      && execd == NextLaunches(h.execd, pc, ch) && silent == NextLaunches(h.silent, pc, ch)
      && phase == h.phase && calls == h.calls && pods == h.pods
    }

    // One section of the call on pod s is over and the call stands at `next`.
    method Section(s: SandboxId, next: Option<Pc>, ghost pc: Pc, ghost ch: Choice)
      requires IsRun(run, steps) && phase.Up? && Get(calls, s) == Some(pc)
      requires CanAdvance(run[|steps|], s, pc, ch) && Sectioned(run[|steps|], s, pc, next, ch)
      modifies `calls, `run, `steps
      ensures Valid() && Get(calls, s) == next && run == old(run) + [World()]
    {
      calls := if next.Some? then calls[s := next.value] else calls - {s};
      Did(Advance(s, ch));
    }

    // Anyone else may move: reapers, processes, calls on other pods.
    method Interfere(s: SandboxId)
      requires Valid()
      modifies this
      ensures Valid() && Get(calls, s) == old(Get(calls, s)) && old(run) <= run
    {
      hide Kept;
      OthersMove(s);
    }

    // They leave this pod's records alone, but for a reaper that records an exit.
    method OthersMove(s: SandboxId)
      requires Valid()
      modifies this
      ensures Valid() && Get(calls, s) == old(Get(calls, s)) && old(run) <= run && Kept(old(World()), World(), s)
    {
      hide Kept, Others, Enabled, Apply;
      var events: seq<Step> := *;
      KeptRefl(World(), s);
      for i := 0 to |events|
        invariant Valid() && Get(calls, s) == old(Get(calls, s)) && old(run) <= run && Kept(old(World()), World(), s)
      {
        if Others(World(), s, events[i]) && Enabled(World(), events[i]) {
          RunOthersKeep(run, steps, |steps|, s, events[i]);
          OthersLeaveTheCall(World(), s, events[i]);
          KeptTrans(old(World()), World(), Apply(World(), events[i]), s);
          Happen(events[i]);
        }
      }
    }

    method Happen(e: Step)
      requires Valid() && Enabled(World(), e)
      modifies this
      ensures OnRun() && World() == old(Apply(World(), e)) && run == old(run) + [World()]
    {
      Become(Apply(World(), e));
      Did(e);
    }

    method Become(h: Host)
      modifies this
      ensures World() == h && run == old(run) && steps == old(steps)
    {
      BecomeStores(h);
      phase, calls, reapers, procs := h.phase, h.calls, h.reapers, h.procs;
      owner, pods, execd, silent := h.owner, h.pods, h.execd, h.silent;
    }

    method BecomeStores(h: Host)
      modifies `containersDir, `sandboxesDir, `containers, `sandboxes
      ensures containersDir == h.diskC && sandboxesDir == h.diskS && containers == h.cacheC && sandboxes == h.cacheS
    {
      containersDir, sandboxesDir, containers, sandboxes := h.diskC, h.diskS, h.cacheC, h.cacheS;
    }

    // ── new ─────────────────────────────────────────────────────────────────

    // Opening a home that a run left behind: each stored record is read, reconciled with the
    // process table and written back before the backend serves anything.
    constructor New(home: Host, ghost before: seq<Host>, ghost taken: seq<Step>)
      requires IsRun(before, taken) && before[|taken|] == home && home.phase.Down?
      ensures Valid() && before <= run && calls == map[] && reapers == map[]
      ensures sandboxes == sandboxesDir == home.diskS && containers == containersDir
      ensures containersDir.Keys == home.diskC.Keys
      ensures forall c | c in containers :: Reconciled(home.diskC[c], containers[c])
      ensures forall c | c in containers && containers[c].state == Running :: containers[c].pid > 0
    {
      containersDir, sandboxesDir, containers, sandboxes := home.diskC, home.diskS, map[], map[];
      phase, calls, reapers, procs := Down, map[], map[], home.procs;
      owner, pods, execd, silent := home.owner, home.pods, home.execd, home.silent;
      run, steps := before, taken;
      DownIsEmpty(before, taken, |taken|);
      new;
      Open();
    }

    method Open()
      requires OnRun() && phase.Down? && calls == map[] && reapers == map[]
      modifies this
      ensures Valid() && old(run) <= run && calls == map[] && reapers == map[]
      ensures sandboxes == sandboxesDir == old(sandboxesDir) && containers == containersDir
      ensures containersDir.Keys == old(containersDir).Keys
      ensures forall c | c in containers :: Reconciled(old(containersDir)[c], containers[c])
      ensures forall c | c in containers && containers[c].state == Running :: containers[c].pid > 0
    {
      ReadDir();
      LoadContainerCache();
      RunLoaded(run, steps, |steps|);
      LoadSandboxCache();
    }

    method ReadDir()
      requires OnRun() && phase.Down?
      modifies `phase, `run, `steps
      ensures OnRun() && phase == Loading(containersDir.Keys) && run == old(run) + [World()]
    {
      phase := Loading(containersDir.Keys);
      Did(Boot);
    }

    method LoadSandboxCache()
      requires OnRun() && phase == Loading({})
      modifies `sandboxes, `phase, `run, `steps
      ensures Valid() && run == old(run) + [World()] && sandboxes == sandboxesDir
    {
      sandboxes, phase := sandboxesDir, Up;
      Did(LoadSandboxes);
    }

    method LoadContainerCache()
      requires OnRun() && phase == Loading(containersDir.Keys) && calls == map[] && reapers == map[]
      modifies this
      ensures OnRun() && phase == Loading({}) && old(run) <= run && calls == map[] && reapers == map[]
      ensures containersDir.Keys == old(containersDir).Keys && sandboxesDir == old(sandboxesDir)
      ensures forall c | c in containersDir :: Reconciled(old(containersDir)[c], containersDir[c])
    {
      ghost var dir := containersDir;
      var todo := containersDir.Keys;
      while todo != {}
        invariant OnRun() && phase == Loading(todo) && todo <= containersDir.Keys && old(run) <= run
        invariant calls == map[] && reapers == map[]
        invariant containersDir.Keys == dir.Keys && sandboxesDir == old(sandboxesDir)
        invariant forall c | c in dir && c in todo :: containersDir[c] == dir[c]
        invariant forall c | c in dir && c !in todo :: Reconciled(dir[c], containersDir[c])
        decreases |todo|
      {
        var c :| c in todo;
        LoadOne(c);
        todo := todo - {c};
      }
    }

    method LoadOne(c: ContainerId)
      requires OnRun() && phase.Loading? && c in phase.todo && c in containersDir
      modifies this
      ensures OnRun() && phase == Loading(old(phase).todo - {c}) && run == old(run) + [World()]
      ensures calls == old(calls) && reapers == old(reapers) && sandboxesDir == old(sandboxesDir)
      ensures c in containersDir && containersDir == old(containersDir)[c := containersDir[c]]
      ensures Reconciled(old(containersDir[c]), containersDir[c])
    {
      var now: int := *;
      StoredUnderItsId(run, steps, |steps|, c);
      var rec := Recovered(containersDir[c], containersDir[c].pid in procs, now);
      containersDir := containersDir[rec.id := rec];
      containers := containers[rec.id := rec];
      phase := Loading(phase.todo - {c});
      Did(LoadContainer(c, now));
    }

    // ── stop_container ──────────────────────────────────────────────────────

    // Unless the wait ran into its deadline, the record is no longer Running on return.
    method StopContainerImpl(s: SandboxId, c: ContainerId, grace: int, stopped: AfterStop) returns (landed: bool)
      requires Valid() && Get(calls, s) == Some(StopLook(c, grace, stopped))
      modifies this
      ensures Valid() && Get(calls, s) == AfterStopping(c, stopped) && old(run) <= run
      ensures landed ==> c !in containers || containers[c].state != Running
    {
      var signalled := StopSignal(s, c, grace, stopped);
      landed := true;
      if signalled {
        landed := WaitUntilExited(s, c);
        StopEnds(s, c, stopped);
      }
    }

    method StopEnds(s: SandboxId, c: ContainerId, stopped: AfterStop)
      requires Valid() && Get(calls, s) == Some(StopWait(c, stopped))
      modifies `calls, `run, `steps
      ensures Valid() && Get(calls, s) == AfterStopping(c, stopped) && old(run) <= run
    {
      Section(s, AfterStopping(c, stopped), StopWait(c, stopped), QUIETLY);
    }

    // The first lock section and the signals. A Running record always has a pid or a cgroup
    // here, so the branch that records the exit itself is left out.
    method StopSignal(s: SandboxId, c: ContainerId, grace: int, stopped: AfterStop) returns (signalled: bool)
      requires Valid() && Get(calls, s) == Some(StopLook(c, grace, stopped))
      modifies this
      ensures Valid() && old(run) <= run
      ensures Get(calls, s) == if signalled then Some(StopWait(c, stopped)) else AfterStopping(c, stopped)
      ensures !signalled ==> c !in containers || containers[c].state != Running
    {
      hide StepAt, SandboxNext, CreateNext, StartNext, RemoveNext;
      Interfere(s);
      signalled := c in containers && containers[c].state == Running;
      if signalled {
        RunningHasPid(run, steps, |steps|, s, c);
      }
      Section(s, if signalled then Some(StopWait(c, stopped)) else AfterStopping(c, stopped),
              StopLook(c, grace, stopped), QUIETLY);
    }

    // Polls the cache until the record is no longer Running or the deadline passes.
    method WaitUntilExited(s: SandboxId, c: ContainerId) returns (exited: bool)
      requires Valid()
      modifies this
      ensures Valid() && Get(calls, s) == old(Get(calls, s)) && old(run) <= run
      ensures exited ==> c !in containers || containers[c].state != Running
    {
      var budget: nat := *;
      exited := c !in containers || containers[c].state != Running;
      while !exited && budget > 0
        invariant Valid() && Get(calls, s) == old(Get(calls, s)) && old(run) <= run
        invariant exited ==> c !in containers || containers[c].state != Running
      {
        Interfere(s);
        exited := c !in containers || containers[c].state != Running;
        budget := budget - 1;
      }
    }

    // ── remove_container ────────────────────────────────────────────────────

    method RemoveContainerImpl(s: SandboxId, c: ContainerId, after: After)
      requires Valid() && Get(calls, s) == Some(RmLook(c, after))
      modifies this
      ensures Valid() && Get(calls, s) == AfterRemoval(after) && old(run) <= run
      ensures c !in containersDir && c !in containers
    {
      var state := RemoveLook(s, c, after);
      if state.None? {
        return;
      }
      if state.value == Running {
        var _ := StopContainerImpl(s, c, 0, ThenDrop(after));
      }
      RemoveDrop(s, c, after);
      RemoveUnlink(s, c, after);
    }

    method RemoveLook(s: SandboxId, c: ContainerId, after: After) returns (state: Option<ContainerState>)
      requires Valid() && Get(calls, s) == Some(RmLook(c, after))
      modifies this
      ensures Valid() && old(run) <= run
      ensures state.None? ==> Get(calls, s) == AfterRemoval(after) && c !in containersDir && c !in containers
      ensures state == Some(Running) ==> Get(calls, s) == Some(StopLook(c, 0, ThenDrop(after)))
      ensures state.Some? && state.value != Running ==> Get(calls, s) == Some(RmDrop(c, after))
    {
      hide StepAt, SandboxNext, CreateNext, StartNext, StopNext;
      Interfere(s);
      RemovingIsSettled(run, steps, |steps|, s, c);
      state := if c in containers then Some(containers[c].state) else None;
      var next := if state.None? then AfterRemoval(after)
                  else Some(if state.value == Running then StopLook(c, 0, ThenDrop(after)) else RmDrop(c, after));
      Section(s, next, RmLook(c, after), QUIETLY);
    }

    method RemoveDrop(s: SandboxId, c: ContainerId, after: After)
      requires Valid() && Get(calls, s) == Some(RmDrop(c, after))
      modifies this
      ensures Valid() && Get(calls, s) == Some(RmUnlink(c, after)) && old(run) <= run
    {
      Interfere(s);
      containers := containers - {c};
      Section(s, Some(RmUnlink(c, after)), RmDrop(c, after), QUIETLY);
    }

    method RemoveUnlink(s: SandboxId, c: ContainerId, after: After)
      requires Valid() && Get(calls, s) == Some(RmUnlink(c, after))
      modifies this
      ensures Valid() && Get(calls, s) == AfterRemoval(after) && old(run) <= run
      ensures c !in containersDir && c !in containers
    {
      Interfere(s);
      containersDir := containersDir - {c};
      Section(s, AfterRemoval(after), RmUnlink(c, after), QUIETLY);
      RunFacts(run, steps, |steps|, c);
    }

    method StopContainer(c: ContainerId, grace: int) returns (landed: bool)
      requires Valid() && (c in owner ==> owner[c] !in calls)
      modifies this
      ensures Valid() && old(run) <= run
      ensures landed ==> c !in containers || containers[c].state != Running
    {
      if c in owner {
        var s := owner[c];
        RunMinted(run, steps, |steps|, c);
        calls := calls[s := StopLook(c, grace, StopReturn)];
        Did(BeginStop(c, grace));
        landed := StopContainerImpl(s, c, grace, StopReturn);
      } else {
        RunFacts(run, steps, |steps|, c);
        landed := true;
      }
    }

    method RemoveContainer(c: ContainerId)
      requires Valid() && (c in owner ==> owner[c] !in calls)
      modifies this
      ensures Valid() && old(run) <= run && c !in containersDir && c !in containers
    {
      if c in owner {
        var s := owner[c];
        RunMinted(run, steps, |steps|, c);
        calls := calls[s := RmLook(c, Return)];
        Did(BeginRemove(c));
        RemoveContainerImpl(s, c, Return);
      } else {
        RunFacts(run, steps, |steps|, c);
      }
    }

    // ── create_container ────────────────────────────────────────────────────

    // `ingress` is the validation of the configuration at the door.
    method CreateContainer(s: SandboxId, config: string, id: ContainerId, now: int, ingress: string -> bool)
        returns (r: Outcome)
      requires Valid() && s !in calls && id !in owner
      modifies this
      ensures Valid() && s !in calls && old(run) <= run
      ensures r == InvalidArgument <==> !ingress(config)
      ensures r == NotFound <==> ingress(config) && s !in old(sandboxes)
      ensures r == FailedPrecondition <==> ingress(config) && s in old(sandboxes) && old(sandboxes[s]).state == NotReady
      ensures r == Done <==> ingress(config) && s in old(sandboxes) && old(sandboxes[s]).state == SandboxState.Ready
      ensures r == Done ==> Get(containers, id) == Get(containersDir, id) == Some(NewContainer(id, s, config, now))
    {
      if !ingress(config) {
        return InvalidArgument;
      }
      RunBounds(run, steps, |steps|);
      if s !in pods {
        return NotFound;
      }
      r := CreateImpl(s, config, id, now);
    }

    method CreateImpl(s: SandboxId, config: string, id: ContainerId, now: int) returns (r: Outcome)
      requires Valid() && s !in calls && s in pods && id !in owner
      modifies this
      ensures Valid() && s !in calls && old(run) <= run
      ensures r == if s !in old(sandboxes) then NotFound
                   else if old(sandboxes[s]).state == NotReady then FailedPrecondition
                   else Done
      ensures r == Done ==> Get(containers, id) == Get(containersDir, id) == Some(NewContainer(id, s, config, now))
    {
      calls := calls[s := CreateGate(config)];
      Did(BeginCreate(s, config));
      r := EnsureSandboxReady(s, config, id, now);
      if r == Done {
        var rec := NewContainer(id, s, config, now);
        CreatePersistRecord(s, rec);
        CreateInsertRecord(s, rec);
      }
    }

    method EnsureSandboxReady(s: SandboxId, config: string, id: ContainerId, now: int) returns (r: Outcome)
      requires Valid() && Get(calls, s) == Some(CreateGate(config)) && id !in owner
      modifies this
      ensures Valid() && old(run) <= run
      ensures r == if s !in old(sandboxes) then NotFound
                   else if old(sandboxes[s]).state == NotReady then FailedPrecondition
                   else Done
      ensures Get(calls, s) == if r == Done then Some(CreatePersist(NewContainer(id, s, config, now))) else None
    {
      hide SandboxNext, StartNext, StopNext, RemoveNext;
      ghost var ch := QUIETLY.(newId := id, now := now);
      if s !in sandboxes {
        Section(s, None, CreateGate(config), ch);
        return NotFound;
      }
      if sandboxes[s].state != SandboxState.Ready {
        Section(s, None, CreateGate(config), ch);
        return FailedPrecondition;
      }
      owner := owner[id := s];
      Section(s, Some(CreatePersist(NewContainer(id, s, config, now))), CreateGate(config), ch);
      return Done;
    }

    method CreatePersistRecord(s: SandboxId, rec: ContainerRecord)
      requires Valid() && Get(calls, s) == Some(CreatePersist(rec))
      modifies this
      ensures Valid() && Get(calls, s) == Some(CreateInsert(rec)) && old(run) <= run
    {
      Interfere(s);
      Persist(rec);
      Section(s, Some(CreateInsert(rec)), CreatePersist(rec), QUIETLY);
    }

    method CreateInsertRecord(s: SandboxId, rec: ContainerRecord)
      requires Valid() && Get(calls, s) == Some(CreateInsert(rec))
      modifies this
      ensures Valid() && s !in calls && old(run) <= run
      ensures Get(containers, rec.id) == Get(containersDir, rec.id) == Some(rec)
    {
      Interfere(s);
      CreatedIsStored(run, steps, |steps|, s);
      containers := containers[rec.id := rec];
      Section(s, None, CreateInsert(rec), QUIETLY);
    }

    method Persist(rec: ContainerRecord)
      modifies `containersDir
      ensures containersDir == old(containersDir)[rec.id := rec]
    {
      containersDir := containersDir[rec.id := rec];
    }

    // ── start_container ─────────────────────────────────────────────────────

    // A start that reports success leaves a stored Running record whose process is held by
    // a waiting reaper; one that fails after its intent leaves a stored Exited record with
    // the failure it reports. A record that is missing or not Created is refused untouched.
    method StartContainer(c: ContainerId) returns (r: Outcome)
      requires Valid() && (c in owner ==> owner[c] !in calls)
      modifies this
      ensures Valid() && old(run) <= run
      ensures r == Done ==>
                && c in containers && Get(containersDir, c) == Some(containers[c]) && containers[c].state == Running
                && Get(reapers, c) == Some(Waiting(containers[c].pid)) && containers[c].pid in Kids(World(), c)
      ensures r == NotFound <==> c !in old(containers)
      ensures r == FailedPrecondition <==> c in old(containers) && old(containers[c]).state != Created
      ensures r == PlanFailed ==> c in containers && containers[c].state == Created
      ensures r.StartFailed? ==> StartFailure(r.code, r.reason) && FailedAs(c, r.code, r.reason)
      ensures r == Done || r == NotFound || r == FailedPrecondition || r == PlanFailed || r.StartFailed?
    {
      if c !in owner {
        RunFacts(run, steps, |steps|, c);
        return NotFound;
      }
      var s := owner[c];
      RunMinted(run, steps, |steps|, c);
      calls := calls[s := StartCheck(c)];
      Did(BeginStart(c));
      var ns: bool;
      r, ns := StartPrepare(s, c);
      if r == Done {
        r := StartLaunch(s, c, ns);
      }
    }

    // The record is Exited with this code and reason, in cache and on disk.
    predicate FailedAs(c: ContainerId, code: int, reason: string)
      reads this
    {
      && c in containers && Get(containersDir, c) == Some(containers[c])
      && containers[c].state == Exited && containers[c].exitCode == code && containers[c].reason == reason
    }

    // Checks and start intent: on success the record that says "starting" is on disk.
    method StartPrepare(s: SandboxId, c: ContainerId) returns (r: Outcome, ns: bool)
      requires Valid() && Get(calls, s) == Some(StartCheck(c))
      modifies this
      ensures Valid() && old(run) <= run
      ensures r == Done ==> Get(calls, s) == Some(StartSpawn(c, ns))
      ensures r == Done || r == NotFound || r == FailedPrecondition || r == PlanFailed
      ensures r == NotFound <==> c !in old(containers)
      ensures r == FailedPrecondition <==> c in old(containers) && old(containers[c]).state != Created
      ensures r == PlanFailed ==> c in containers && containers[c].state == Created
    {
      r, ns := StartLook(s, c);
      if r == Done {
        var snap;
        r, snap := StartIntend(s, c, ns);
        if r == Done {
          StartIntendPersist(s, snap, ns);
        }
      }
    }

    method StartLook(s: SandboxId, c: ContainerId) returns (r: Outcome, ns: bool)
      requires Valid() && Get(calls, s) == Some(StartCheck(c))
      modifies this
      ensures Valid() && old(run) <= run
      ensures r == Done || r == NotFound || r == FailedPrecondition
      ensures r == Done ==> Get(calls, s) == Some(StartIntent(c, ns))
      ensures r == NotFound <==> c !in old(containers)
      ensures r == FailedPrecondition <==> c in old(containers) && old(containers[c]).state != Created
    {
      AtPoint(run, steps, |steps|, s, c);
      OthersMove(s);
      KeptRecord(old(World()), World(), s, c);
      r, ns := StartDecide(s, c);
    }

    method StartDecide(s: SandboxId, c: ContainerId) returns (r: Outcome, ns: bool)
      requires Valid() && Get(calls, s) == Some(StartCheck(c))
      modifies `calls, `run, `steps
      ensures Valid() && old(run) <= run
      ensures r == if c !in containers then NotFound
                   else if containers[c].state != Created then FailedPrecondition
                   else Done
      ensures r == Done ==> Get(calls, s) == Some(StartIntent(c, ns))
    {
      hide SandboxNext, CreateNext, StopNext, RemoveNext;
      ns := HasNetns(Get(sandboxes, s));
      if c !in containers {
        Section(s, None, StartCheck(c), QUIETLY);
        r := NotFound;
      } else if containers[c].state != Created {
        Section(s, None, StartCheck(c), QUIETLY);
        r := FailedPrecondition;
      } else {
        Section(s, Some(StartIntent(c, ns)), StartCheck(c), QUIETLY);
        r := Done;
      }
    }

    // The plan (argv, log file, readiness pipe) may fail before anything is written.
    method StartIntend(s: SandboxId, c: ContainerId, ns: bool) returns (r: Outcome, snap: ContainerRecord)
      requires Valid() && Get(calls, s) == Some(StartIntent(c, ns))
      modifies this
      ensures Valid() && old(run) <= run
      ensures r == Done || r == PlanFailed
      ensures r == Done ==> snap.id == c && Get(calls, s) == Some(StartPersistIntent(snap, ns))
      ensures r == PlanFailed ==> c in containers && containers[c].state == Created
    {
      hide StepAt, SandboxNext, CreateNext, StopNext, RemoveNext;
      var planned: bool, now: int := *, *;
      Interfere(s);
      StartsFromCache(run, steps, |steps|, s, c);
      ghost var ch := QUIETLY.(ok := planned, now := now);
      snap := WithIntent(containers[c], ns, now);
      if !planned {
        Section(s, None, StartIntent(c, ns), ch);
        r := PlanFailed;
      } else {
        containers := containers[c := snap];
        Section(s, Some(StartPersistIntent(snap, ns)), StartIntent(c, ns), ch);
        r := Done;
      }
    }

    method StartIntendPersist(s: SandboxId, snap: ContainerRecord, ns: bool)
      requires Valid() && Get(calls, s) == Some(StartPersistIntent(snap, ns))
      modifies this
      ensures Valid() && Get(calls, s) == Some(StartSpawn(snap.id, ns)) && old(run) <= run
    {
      Interfere(s);
      Persist(snap);
      Section(s, Some(StartSpawn(snap.id, ns)), StartPersistIntent(snap, ns), QUIETLY);
    }

    // Spawn, wait for readiness on the ns path, then record Running and hand over to a reaper.
    method StartLaunch(s: SandboxId, c: ContainerId, ns: bool) returns (r: Outcome)
      requires Valid() && Get(calls, s) == Some(StartSpawn(c, ns))
      modifies this
      ensures Valid() && old(run) <= run && (r == Done || r.StartFailed?)
      ensures r == Done ==>
                && c in containers && Get(containersDir, c) == Some(containers[c]) && containers[c].state == Running
                && Get(reapers, c) == Some(Waiting(containers[c].pid)) && containers[c].pid in Kids(World(), c)
      ensures r.StartFailed? ==> StartFailure(r.code, r.reason) && FailedAs(c, r.code, r.reason)
    {
      var pid := Spawn(s, c, ns);
      var failure := if pid.None? then Some(ExitStatus(-1, "spawn-failed")) else None;
      if pid.Some? && ns {
        failure := WaitExecReady(s, c, pid.value);
      }
      if failure.Some? {
        RecordStartFailure(s, c, failure.value);
        return StartFailed(failure.value.code, failure.value.reason);
      }
      var snap := RecordRunning(s, c, pid.value, ns);
      RecordRunningPersist(s, snap, pid.value);
      SpawnReaper(s, c, pid.value);
      return Done;
    }

    method Spawn(s: SandboxId, c: ContainerId, ns: bool) returns (child: Option<nat>)
      requires Valid() && Get(calls, s) == Some(StartSpawn(c, ns))
      modifies this
      ensures Valid() && old(run) <= run
      ensures Get(calls, s) == Some(if child.None? then StartFail(c, -1, "spawn-failed")
                                    else if ns then StartAwait(c, child.value, Pipe(0, true))
                                    else StartRun(c, child.value, false))
    {
      var pid: int := *;
      Interfere(s);
      if pid <= 0 || pid in procs {
        Section(s, Some(StartFail(c, -1, "spawn-failed")), StartSpawn(c, ns), QUIETLY.(ok := false));
        return None;
      }
      Forked(s, c, ns, pid);
      return Some(pid);
    }

    method Forked(s: SandboxId, c: ContainerId, ns: bool, pid: nat)
      requires Valid() && Get(calls, s) == Some(StartSpawn(c, ns)) && pid > 0 && pid !in procs
      modifies this
      ensures Valid() && old(run) <= run
      ensures Get(calls, s) == Some(if ns then StartAwait(c, pid, Pipe(0, true)) else StartRun(c, pid, false))
    {
      var next := if ns then StartAwait(c, pid, Pipe(0, true)) else StartRun(c, pid, false);
      SpawnEffects(World(), s, c, ns, pid, next);
      hide NextPc, NextDiskC, NextDiskS, NextCacheC, NextCacheS, NextProcs, NextLaunches, CanAdvance;
      Fork(c, pid);
      Section(s, Some(next), StartSpawn(c, ns), QUIETLY.(pid := pid));
    }

    method Fork(c: ContainerId, pid: nat)
      modifies `procs, `execd, `silent
      ensures procs == old(procs)[pid := Proc(Some(c), true, None)]
      ensures execd == old(execd) - {Launch(c, pid)} && silent == old(silent) - {Launch(c, pid)}
    {
      procs := procs[pid := Proc(Some(c), true, None)];
      execd, silent := execd - {Launch(c, pid)}, silent - {Launch(c, pid)};
    }

    // Polls the readiness pipe to the deadline, then reads it to classify the outcome.
    // Only an empty read at end of file lets the start go on.
    method WaitExecReady(s: SandboxId, c: ContainerId, pid: nat) returns (failure: Option<ExitStatus>)
      requires Valid() && Get(calls, s) == Some(StartAwait(c, pid, Pipe(0, true)))
      modifies this
      ensures Valid() && old(run) <= run
      ensures Get(calls, s) == Some(if failure.None? then StartRun(c, pid, true)
                                    else StartFail(c, failure.value.code, failure.value.reason))
      ensures failure.Some? ==> StartFailure(failure.value.code, failure.value.reason)
    {
      var budget: nat, readable := *, false;
      while !readable && budget > 0
        invariant Valid() && old(run) <= run && s in calls
        invariant calls[s].StartAwait? && calls[s].cid == c && calls[s].pid == pid
        invariant readable ==> calls[s].pipe.bytes > 0 || !calls[s].pipe.open
      {
        EngineMoves(s);
        Interfere(s);
        readable := calls[s].pipe.bytes > 0 || !calls[s].pipe.open;
        budget := budget - 1;
      }
      failure := Classify(s, readable);
      if failure.Some? {
        ReapChild(s, c, pid, failure.value);
      }
    }

    // The container's first process writes to the pipe, execs, or dies.
    method EngineMoves(s: SandboxId)
      requires Valid() && s in calls && calls[s].StartAwait?
      modifies this
      ensures Valid() && old(run) <= run && s in calls
      ensures calls[s].StartAwait? && calls[s] == old(calls[s]).(pipe := calls[s].pipe)
    {
      var e: Step := *;
      if (e == EngineWrites(s) || e == EngineExecs(s) || e == EngineDies(s)) && Enabled(World(), e) {
        EngineViews(World(), s, e);
        Happen(e);
      }
    }

    method Classify(s: SandboxId, readable: bool) returns (failure: Option<ExitStatus>)
      requires Valid() && s in calls && calls[s].StartAwait?
      requires readable ==> calls[s].pipe.bytes > 0 || !calls[s].pipe.open
      modifies this
      ensures Valid() && old(run) <= run
      ensures failure.None? ==> readable && old(calls[s]).pipe == Pipe(0, false)
      ensures failure.Some? ==> StartFailure(failure.value.code, failure.value.reason)
      ensures var pc := old(calls[s]);
              Get(calls, s) == Some(if failure.None? then StartRun(pc.cid, pc.pid, true)
                                    else StartReap(pc.cid, pc.pid, failure.value.code, failure.value.reason))
    {
      var pc, readOk: bool := calls[s], *;
      var poll := if !readable then TimedOut else if readOk then Readable else ReadFailed;
      failure := if poll == TimedOut then Some(ExitStatus(-1, "start-timeout"))
                 else if poll == Readable && pc.pipe.bytes == 0 then None
                 else Some(ExitStatus(127, "exec-failed"));
      var next := if failure.None? then StartRun(pc.cid, pc.pid, true)
                  else StartReap(pc.cid, pc.pid, failure.value.code, failure.value.reason);
      Section(s, Some(next), pc, QUIETLY.(poll := poll));
    }

    // child.wait() returns once the process has exited.
    method WaitChild(s: SandboxId, pid: nat)
      requires Valid()
      modifies this
      ensures Valid() && Get(calls, s) == old(Get(calls, s)) && old(run) <= run
      ensures pid in procs ==> procs[pid].exit.Some?
    {
      var status: ExitStatus := *;
      Interfere(s);
      if pid in procs && procs[pid].exit.None? {
        procs := procs[pid := procs[pid].(exit := Some(status))];
        Did(ProcExits(pid, status));
      }
    }

    method ReapChild(s: SandboxId, c: ContainerId, pid: nat, failure: ExitStatus)
      requires Valid() && Get(calls, s) == Some(StartReap(c, pid, failure.code, failure.reason))
      modifies this
      ensures Valid() && Get(calls, s) == Some(StartFail(c, failure.code, failure.reason)) && old(run) <= run
    {
      WaitChild(s, pid);
      procs := procs - {pid};
      Section(s, Some(StartFail(c, failure.code, failure.reason)), StartReap(c, pid, failure.code, failure.reason),
              QUIETLY);
    }

    method RecordStartFailure(s: SandboxId, c: ContainerId, failure: ExitStatus)
      requires Valid() && Get(calls, s) == Some(StartFail(c, failure.code, failure.reason))
      modifies this
      ensures Valid() && s !in calls && old(run) <= run && FailedAs(c, failure.code, failure.reason)
    {
      var snap := FailLock(s, c, failure);
      FailPersist(s, snap);
    }

    method FailLock(s: SandboxId, c: ContainerId, failure: ExitStatus) returns (snap: ContainerRecord)
      requires Valid() && Get(calls, s) == Some(StartFail(c, failure.code, failure.reason))
      modifies this
      ensures Valid() && Get(calls, s) == Some(StartFailPersist(snap)) && old(run) <= run
      ensures snap.id == c && snap.exitCode == failure.code && snap.reason == failure.reason
    {
      var now: int, message: string := *, *;
      Interfere(s);
      StartsFromCache(run, steps, |steps|, s, c);
      snap := WithStartFailure(containers[c], failure.code, failure.reason, message, now);
      containers := containers[c := snap];
      Section(s, Some(StartFailPersist(snap)), StartFail(c, failure.code, failure.reason),
              QUIETLY.(now := now, note := message));
    }

    method FailPersist(s: SandboxId, snap: ContainerRecord)
      requires Valid() && Get(calls, s) == Some(StartFailPersist(snap))
      modifies this
      ensures Valid() && s !in calls && old(run) <= run
      ensures Get(containers, snap.id) == Get(containersDir, snap.id) == Some(snap) && snap.state == Exited
    {
      Interfere(s);
      FailureIsCached(run, steps, |steps|, s);
      Persist(snap);
      Section(s, None, StartFailPersist(snap), QUIETLY);
    }

    method RecordRunning(s: SandboxId, c: ContainerId, pid: nat, ns: bool) returns (snap: ContainerRecord)
      requires Valid() && Get(calls, s) == Some(StartRun(c, pid, ns))
      modifies this
      ensures Valid() && Get(calls, s) == Some(StartPersistRun(snap, pid)) && snap.id == c && old(run) <= run
    {
      hide StepAt, SandboxNext, CreateNext, StopNext, RemoveNext;
      Interfere(s);
      StartsFromCache(run, steps, |steps|, s, c);
      snap := WithPid(containers[c], pid, ns);
      containers := containers[c := snap];
      Section(s, Some(StartPersistRun(snap, pid)), StartRun(c, pid, ns), QUIETLY);
    }

    method RecordRunningPersist(s: SandboxId, snap: ContainerRecord, pid: nat)
      requires Valid() && Get(calls, s) == Some(StartPersistRun(snap, pid))
      modifies this
      ensures Valid() && Get(calls, s) == Some(StartReaper(snap.id, pid)) && old(run) <= run
    {
      Interfere(s);
      Persist(snap);
      Section(s, Some(StartReaper(snap.id, pid)), StartPersistRun(snap, pid), QUIETLY);
    }

    method SpawnReaper(s: SandboxId, c: ContainerId, pid: nat)
      requires Valid() && Get(calls, s) == Some(StartReaper(c, pid))
      modifies this
      ensures Valid() && s !in calls && old(run) <= run
      ensures c in containers && Get(containersDir, c) == Some(containers[c]) && containers[c].state == Running
      ensures Get(reapers, c) == Some(Waiting(containers[c].pid)) && containers[c].pid in Kids(World(), c)
    {
      Interfere(s);
      StartedIsStored(run, steps, |steps|, s, c);
      reapers := reapers[c := Waiting(pid)];
      Section(s, None, StartReaper(c, pid), QUIETLY);
    }

    // The reaper's lock section. The write to disk happens with the lock held.
    method ReaperLands(c: ContainerId)
      requires Valid() && c in reapers && reapers[c].Holding?
      modifies this
      ensures Valid() && c !in reapers && run == old(run) + [World()]
      ensures c in old(containers) && old(containers[c]).state == Running ==>
                var r := old(reapers[c]);
                var exit := WithExit(old(containers[c]), r.status.code, r.status.reason, r.at);
                Get(containers, c) == Get(containersDir, c) == Some(exit)
      ensures c in containers ==> containers[c].state != Running
      ensures c !in old(containers) ==> containersDir == old(containersDir) && containers == old(containers)
    {
      var r := reapers[c];
      if c in containers && containers[c].state == Running {
        var entry := WithExit(containers[c], r.status.code, r.status.reason, r.at);
        containers := containers[c := entry];
        containersDir := containersDir[c := entry];
      }
      reapers := reapers - {c};
      Did(ReaperRecords(c));
    }

    // ── run_sandbox, stop_sandbox, remove_sandbox ───────────────────────────

    // `cni` is what network setup gives the pod, if it succeeds: an address and a namespace.
    method RunSandbox(id: SandboxId, config: string, hostNetwork: bool, cni: Option<(Option<string>, Option<string>)>,
                      now: int, ingress: string -> bool)
        returns (r: Outcome)
      requires Valid() && id !in pods && id !in calls
      modifies this
      ensures Valid() && id !in calls && old(run) <= run
      ensures r == InvalidArgument <==> !ingress(config)
      ensures r == NetworkFailed <==> ingress(config) && !hostNetwork && cni.None?
      ensures r == Done || r == InvalidArgument || r == NetworkFailed
      ensures r == Done ==>
                var (ip, netns) := if hostNetwork then (None, None) else cni.value;
                var sb := SandboxRecord(id, config, SandboxState.Ready, now, ip, netns);
                Get(sandboxes, id) == Get(sandboxesDir, id) == Some(sb)
    {
      if !ingress(config) {
        return InvalidArgument;
      }
      if !hostNetwork && cni.None? {
        return NetworkFailed;
      }
      var (ip, netns) := if hostNetwork then (None, None) else cni.value;
      var sb := SandboxRecord(id, config, SandboxState.Ready, now, ip, netns);
      calls, pods := calls[id := RunPersist(sb)], pods + {id};
      Did(BeginRunSandbox(sb));
      RunSandboxPersist(sb);
      RunSandboxInsert(sb);
      r := Done;
    }

    method RunSandboxPersist(sb: SandboxRecord)
      requires Valid() && Get(calls, sb.id) == Some(RunPersist(sb))
      modifies this
      ensures Valid() && Get(calls, sb.id) == Some(RunInsert(sb)) && old(run) <= run
    {
      Interfere(sb.id);
      sandboxesDir := sandboxesDir[sb.id := sb];
      Section(sb.id, Some(RunInsert(sb)), RunPersist(sb), QUIETLY);
    }

    method RunSandboxInsert(sb: SandboxRecord)
      requires Valid() && Get(calls, sb.id) == Some(RunInsert(sb))
      modifies this
      ensures Valid() && sb.id !in calls && old(run) <= run
      ensures Get(sandboxes, sb.id) == Some(sb) == Get(sandboxesDir, sb.id)
    {
      Interfere(sb.id);
      AtPod(run, steps, |steps|, sb.id);
      sandboxes := sandboxes[sb.id := sb];
      Section(sb.id, None, RunInsert(sb), QUIETLY);
    }

    method StopSandbox(s: SandboxId)
      requires Valid() && s !in calls
      modifies this
      ensures Valid() && s !in calls && old(run) <= run
      ensures s in sandboxesDir ==> sandboxesDir[s].state == NotReady
      ensures s in sandboxes ==> sandboxes[s].state == NotReady
    {
      if s !in pods {
        RunBounds(run, steps, |steps|);
        return;
      }
      calls := calls[s := StopSbLock(false)];
      Did(BeginStopSandbox(s));
      StopSandboxImpl(s, false);
    }

    method StopSandboxImpl(s: SandboxId, cascade: bool)
      requires Valid() && Get(calls, s) == Some(StopSbLock(cascade))
      modifies this
      ensures Valid() && Get(calls, s) == AfterStopSandbox(cascade) && old(run) <= run
      ensures s in sandboxesDir ==> sandboxesDir[s].state == NotReady
      ensures s in sandboxes ==> sandboxes[s].state == NotReady
    {
      var snap := StopSandboxLock(s, cascade);
      if snap.Some? {
        StopSandboxPersist(s, snap.value, cascade);
      }
    }

    method StopSandboxLock(s: SandboxId, cascade: bool) returns (snap: Option<SandboxRecord>)
      requires Valid() && Get(calls, s) == Some(StopSbLock(cascade))
      modifies this
      ensures Valid() && old(run) <= run
      ensures snap.Some? ==> Get(calls, s) == Some(StopSbPersist(snap.value, cascade))
      ensures snap.None? ==>
                && Get(calls, s) == AfterStopSandbox(cascade)
                && (s in sandboxesDir ==> sandboxesDir[s].state == NotReady)
                && (s in sandboxes ==> sandboxes[s].state == NotReady)
    {
      Interfere(s);
      AtPod(run, steps, |steps|, s);
      if s !in sandboxes || sandboxes[s].state == NotReady {
        Section(s, AfterStopSandbox(cascade), StopSbLock(cascade), QUIETLY);
        return None;
      }
      var rec := sandboxes[s].(state := NotReady);
      sandboxes := sandboxes[s := rec];
      Section(s, Some(StopSbPersist(rec, cascade)), StopSbLock(cascade), QUIETLY);
      return Some(rec);
    }

    method StopSandboxPersist(s: SandboxId, snap: SandboxRecord, cascade: bool)
      requires Valid() && Get(calls, s) == Some(StopSbPersist(snap, cascade))
      modifies this
      ensures Valid() && Get(calls, s) == AfterStopSandbox(cascade) && old(run) <= run
      ensures s in sandboxesDir ==> sandboxesDir[s].state == NotReady
      ensures s in sandboxes ==> sandboxes[s].state == NotReady
    {
      Interfere(s);
      AtPod(run, steps, |steps|, s);
      sandboxesDir := sandboxesDir[snap.id := snap];
      Section(s, AfterStopSandbox(cascade), StopSbPersist(snap, cascade), QUIETLY);
    }

    // Returns after finitely many sections, whatever the rest of the host does, with the
    // sandbox and every container ever minted in it gone.
    method RemoveSandbox(s: SandboxId)
      requires Valid() && s !in calls
      modifies this
      ensures Valid() && s !in calls && old(run) <= run
      ensures s !in sandboxesDir && s !in sandboxes
      ensures forall c | Get(owner, c) == Some(s) :: c !in containersDir && c !in containers
    {
      if s in pods {
        calls := calls[s := StopSbLock(true)];
        Did(BeginRemoveSandbox(s));
        RemoveSandboxImpl(s);
      } else {
        RunBounds(run, steps, |steps|);
      }
      NoSandboxNoContainers(run, steps, |steps|, s);
    }

    method RemoveSandboxImpl(s: SandboxId)
      requires Valid() && Get(calls, s) == Some(StopSbLock(true))
      modifies this
      ensures Valid() && s !in calls && s !in sandboxesDir && s !in sandboxes && old(run) <= run
    {
      StopSandboxImpl(s, true);
      var ids := Collect(s);
      if ids.Some? {
        RemoveAll(s, ids.value);
        var present := RemoveSandboxDrop(s);
        if present {
          RemoveSandboxUnlink(s);
        }
      }
    }

    // The lock section that lists the pod's containers from the cache.
    method Collect(s: SandboxId) returns (ids: Option<seq<ContainerId>>)
      requires Valid() && Get(calls, s) == Some(RmSbCollect)
      modifies this
      ensures Valid() && old(run) <= run
      ensures ids.Some? ==> Get(calls, s) == Some(RmSbLoop(ids.value))
      ensures ids.None? ==> s !in calls && s !in sandboxesDir && s !in sandboxes
    {
      Interfere(s);
      var listing := PodContainers(s);
      ghost var ch := QUIETLY.(listing := listing);
      if s !in sandboxes {
        AtPod(run, steps, |steps|, s);
        Section(s, None, RmSbCollect, ch);
        return None;
      }
      Section(s, Some(RmSbLoop(listing)), RmSbCollect, ch);
      return Some(listing);
    }

    method PodContainers(s: SandboxId) returns (ids: seq<ContainerId>)
      ensures Lists(World(), s, ids)
    {
      ids := [];
      var left := containers.Keys;
      while left != {}
        invariant left <= containers.Keys
        invariant forall c | c in ids :: c in containers && containers[c].sandbox == s
        invariant forall c | c in containers && c !in left && containers[c].sandbox == s :: c in ids
      {
        var c :| c in left;
        if containers[c].sandbox == s {
          ids := ids + [c];
        }
        left := left - {c};
      }
    }

    // Stop and remove each listed container in turn.
    method RemoveAll(s: SandboxId, ids: seq<ContainerId>)
      requires Valid() && Get(calls, s) == Some(RmSbLoop(ids))
      modifies this
      ensures Valid() && Get(calls, s) == Some(RmSbDrop) && old(run) <= run
    {
      var todo := ids;
      while todo != []
        invariant Valid() && Get(calls, s) == Some(RmSbLoop(todo)) && old(run) <= run
        decreases |todo|
      {
        NextInCascade(s, todo);
        var _ := StopContainerImpl(s, todo[0], 0, ThenRemove(NextContainer(todo[1..])));
        RemoveContainerImpl(s, todo[0], NextContainer(todo[1..]));
        todo := todo[1..];
      }
      NextInCascade(s, []);
    }

    method NextInCascade(s: SandboxId, todo: seq<ContainerId>)
      requires Valid() && Get(calls, s) == Some(RmSbLoop(todo))
      modifies this
      ensures Valid() && old(run) <= run
      ensures Get(calls, s) == Some(if todo == [] then RmSbDrop
                                    else StopLook(todo[0], 0, ThenRemove(NextContainer(todo[1..]))))
    {
      Section(s, Some(if todo == [] then RmSbDrop else StopLook(todo[0], 0, ThenRemove(NextContainer(todo[1..])))),
              RmSbLoop(todo), QUIETLY);
    }

    method RemoveSandboxDrop(s: SandboxId) returns (present: bool)
      requires Valid() && Get(calls, s) == Some(RmSbDrop)
      modifies this
      ensures Valid() && old(run) <= run
      ensures present ==> Get(calls, s) == Some(RmSbUnlink)
      ensures !present ==> s !in calls && s !in sandboxesDir && s !in sandboxes
    {
      Interfere(s);
      if s !in sandboxes {
        AtPod(run, steps, |steps|, s);
        Section(s, None, RmSbDrop, QUIETLY);
        return false;
      }
      sandboxes := sandboxes - {s};
      Section(s, Some(RmSbUnlink), RmSbDrop, QUIETLY);
      return true;
    }

    method RemoveSandboxUnlink(s: SandboxId)
      requires Valid() && Get(calls, s) == Some(RmSbUnlink)
      modifies this
      ensures Valid() && s !in calls && s !in sandboxesDir && s !in sandboxes && old(run) <= run
    {
      Interfere(s);
      AtPod(run, steps, |steps|, s);
      sandboxesDir := sandboxesDir - {s};
      Section(s, None, RmSbUnlink, QUIETLY);
    }
  }

  // A successful spawn moves the call, the process table and the launches, nothing else.
  lemma SpawnEffects(h: Host, s: SandboxId, c: ContainerId, ns: bool, pid: nat, next: Pc)
    requires pid > 0 && pid !in h.procs
    requires next == if ns then StartAwait(c, pid, Pipe(0, true)) else StartRun(c, pid, false)
    ensures var pc, ch := StartSpawn(c, ns), QUIETLY.(pid := pid);
            && CanAdvance(h, s, pc, ch) && NextPc(Cached(h, pc), Get(h.cacheS, s), s, pc, ch) == Some(next)
            && NextDiskC(h.diskC, pc) == h.diskC && NextDiskS(h.diskS, s, pc) == h.diskS
            && NextCacheC(h.cacheC, pc, Some(next)) == h.cacheC && NextCacheS(h.cacheS, s, pc, Some(next)) == h.cacheS
            && NextProcs(h.procs, pc, ch) == h.procs[pid := Proc(Some(c), true, None)]
            && NextLaunches(h.execd, pc, ch) == h.execd - {Launch(c, pid)}
            && NextLaunches(h.silent, pc, ch) == h.silent - {Launch(c, pid)}
  {
  }

  // ── What the invariant says at a call's own control points ────────────────

  lemma RunningHasPid(hs: seq<Host>, steps: seq<Step>, i: nat, s: SandboxId, c: ContainerId)
    requires IsRun(hs, steps) && i < |hs| && s in hs[i].calls && hs[i].calls[s].StopLook? && hs[i].calls[s].cid == c
    requires c in hs[i].cacheC && hs[i].cacheC[c].state == Running
    ensures hs[i].cacheC[c].pid > 0
  {
    AtPoint(hs, steps, i, s, c);
  }

  lemma RemovingIsSettled(hs: seq<Host>, steps: seq<Step>, i: nat, s: SandboxId, c: ContainerId)
    requires IsRun(hs, steps) && i < |hs| && s in hs[i].calls && hs[i].calls[s].RmLook? && hs[i].calls[s].cid == c
    ensures Get(hs[i].cacheC, c) == Get(hs[i].diskC, c)
  {
    AtPoint(hs, steps, i, s, c);
  }

  lemma StartsFromCache(hs: seq<Host>, steps: seq<Step>, i: nat, s: SandboxId, c: ContainerId)
    requires IsRun(hs, steps) && i < |hs| && s in hs[i].calls && Subject(hs[i].calls[s]) == Some(c)
    requires var pc := hs[i].calls[s]; pc.StartIntent? || pc.StartFail? || pc.StartRun?
    ensures c in hs[i].cacheC && hs[i].cacheC[c].id == c
    ensures hs[i].calls[s].StartIntent? ==> hs[i].cacheC[c].state == Created
  {
    AtPoint(hs, steps, i, s, c);
  }

  lemma StartedIsStored(hs: seq<Host>, steps: seq<Step>, i: nat, s: SandboxId, c: ContainerId)
    requires IsRun(hs, steps) && i < |hs| && s in hs[i].calls && hs[i].calls[s].StartReaper? && hs[i].calls[s].cid == c
    ensures c in hs[i].cacheC && Get(hs[i].diskC, c) == Some(hs[i].cacheC[c]) && hs[i].cacheC[c].state == Running
    ensures hs[i].cacheC[c].pid == hs[i].calls[s].pid && hs[i].calls[s].pid in Kids(hs[i], c)
  {
    AtPoint(hs, steps, i, s, c);
  }

  lemma FailureIsCached(hs: seq<Host>, steps: seq<Step>, i: nat, s: SandboxId)
    requires IsRun(hs, steps) && i < |hs| && s in hs[i].calls && hs[i].calls[s].StartFailPersist?
    ensures var snap := hs[i].calls[s].snap; Get(hs[i].cacheC, snap.id) == Some(snap) && snap.state == Exited
  {
    AtPoint(hs, steps, i, s, hs[i].calls[s].snap.id);
  }

  lemma CreatedIsStored(hs: seq<Host>, steps: seq<Step>, i: nat, s: SandboxId)
    requires IsRun(hs, steps) && i < |hs| && s in hs[i].calls && hs[i].calls[s].CreateInsert?
    ensures var snap := hs[i].calls[s].snap; Get(hs[i].diskC, snap.id) == Some(snap)
  {
    AtPoint(hs, steps, i, s, hs[i].calls[s].snap.id);
  }

  lemma DownIsEmpty(hs: seq<Host>, steps: seq<Step>, i: nat)
    requires IsRun(hs, steps) && i < |hs| && hs[i].phase.Down?
    ensures hs[i].cacheC == map[] && hs[i].cacheS == map[] && hs[i].calls == map[] && hs[i].reapers == map[]
  {
    RunKeepsInv(hs, steps, i);
  }

  lemma StoredUnderItsId(hs: seq<Host>, steps: seq<Step>, i: nat, c: ContainerId)
    requires IsRun(hs, steps) && i < |hs| && c in hs[i].diskC
    ensures hs[i].diskC[c].id == c
  {
    RunFacts(hs, steps, i, c);
  }

  lemma RunLoaded(hs: seq<Host>, steps: seq<Step>, i: nat)
    requires IsRun(hs, steps) && i < |hs| && hs[i].phase == Loading({})
    ensures hs[i].cacheC == hs[i].diskC
    ensures forall c | c in hs[i].cacheC && hs[i].cacheC[c].state == Running :: hs[i].cacheC[c].pid > 0
  {
    RunKeepsInv(hs, steps, i);
  }

  lemma AtPod(hs: seq<Host>, steps: seq<Step>, i: nat, s: SandboxId)
    requires IsRun(hs, steps) && i < |hs| && s in hs[i].calls
    ensures PodLaw(s, PodOf(hs[i], s), Some(hs[i].calls[s]))
  {
    RunKeepsInv(hs, steps, i);
    InvAt(hs[i], s);
  }

  lemma RunMinted(hs: seq<Host>, steps: seq<Step>, i: nat, c: ContainerId)
    requires IsRun(hs, steps) && i < |hs| && c in hs[i].owner
    ensures hs[i].owner[c] in hs[i].pods
  {
    RunKeepsInv(hs, steps, i);
  }

  lemma RunBounds(hs: seq<Host>, steps: seq<Step>, i: nat)
    requires IsRun(hs, steps) && i < |hs|
    ensures hs[i].diskS.Keys <= hs[i].pods && hs[i].cacheS.Keys <= hs[i].pods
  {
    RunKeepsInv(hs, steps, i);
  }

  lemma NoSandboxNoContainers(hs: seq<Host>, steps: seq<Step>, i: nat, s: SandboxId)
    requires IsRun(hs, steps) && i < |hs| && s !in hs[i].diskS
    ensures forall c | Get(hs[i].owner, c) == Some(s) :: c !in hs[i].diskC && c !in hs[i].cacheC
  {
    forall c | Get(hs[i].owner, c) == Some(s) ensures c !in hs[i].diskC && c !in hs[i].cacheC {
      RunFacts(hs, steps, i, c);
    }
  }

  lemma AtPoint(hs: seq<Host>, steps: seq<Step>, i: nat, s: SandboxId, c: ContainerId)
    requires IsRun(hs, steps) && i < |hs| && s in hs[i].calls && Subject(hs[i].calls[s]) == Some(c)
    ensures Of(hs[i], c, s) && CellLaw(c, s, CellOf(hs[i], c), PodOf(hs[i], s), Some(hs[i].calls[s]))
  {
    RunKeepsInv(hs, steps, i);
    InvAt(hs[i], s);
  }
}
