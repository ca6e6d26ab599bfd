/**
 The step machine of the CRI backend. One step is one lock section, one atomic persist or
 unlink, one blocking wait, one reaper action, one process event, or a crash. Every
 choice the environment makes is carried by the step, so `Apply` is a function.
 */
module CriSteps {
  import opened Options
  import opened CriState

  // How the readiness wait of an ns start ended.
  datatype Poll = Readable | ReadFailed | TimedOut

  // The environment's part in one step of a call.
  datatype Choice = Choice(
    now: int, ok: bool, newId: ContainerId, pid: nat, poll: Poll, note: string,
    listing: seq<ContainerId>)

  datatype Step =
    | BeginRunSandbox(sb: SandboxRecord)
    | BeginStopSandbox(s: SandboxId)
    | BeginRemoveSandbox(s: SandboxId)
    | BeginCreate(s: SandboxId, config: string)
    | BeginStart(c: ContainerId)
    | BeginStop(c: ContainerId, grace: int)
    | BeginRemove(c: ContainerId)
    | Advance(s: SandboxId, ch: Choice)
    | EngineWrites(s: SandboxId)
    | EngineExecs(s: SandboxId)
    | EngineDies(s: SandboxId)
    | ProcExits(pid: nat, status: ExitStatus)
    | InitReaps(pid: nat)
    | ForeignSpawn(pid: nat)
    | ReaperWakes(c: ContainerId, waitOk: bool, now: int)
    | ReaperRecords(c: ContainerId)
    | Crash
    | Boot
    | LoadContainer(c: ContainerId, now: int)
    | LoadSandboxes

  // The pod whose call a step belongs to.
  function CallOf(h: Host, step: Step): Option<SandboxId> {
    match step
    case BeginRunSandbox(sb) => Some(sb.id)
    case BeginStopSandbox(s) => Some(s)
    case BeginRemoveSandbox(s) => Some(s)
    case BeginCreate(s, _) => Some(s)
    case BeginStart(c) => Get(h.owner, c)
    case BeginStop(c, _) => Get(h.owner, c)
    case BeginRemove(c) => Get(h.owner, c)
    case Advance(s, _) => Some(s)
    case _ => None
  }

  predicate CanBegin(h: Host, s: SandboxId) {
    h.phase.Up? && s in h.pods && s !in h.calls
  }

  predicate CanBeginOn(h: Host, c: ContainerId) {
    c in h.owner && CanBegin(h, h.owner[c])
  }

  predicate Awaiting(h: Host, s: SandboxId) {
    s in h.calls && h.calls[s].StartAwait? && h.calls[s].pipe.open
  }

  predicate Enabled(h: Host, step: Step) {
    match step
    case BeginRunSandbox(sb) => h.phase.Up? && sb.id !in h.pods && sb.state == SandboxState.Ready && sb.id !in h.calls
    case BeginStopSandbox(s) => CanBegin(h, s)
    case BeginRemoveSandbox(s) => CanBegin(h, s)
    case BeginCreate(s, _) => CanBegin(h, s)
    case BeginStart(c) => CanBeginOn(h, c)
    case BeginStop(c, _) => CanBeginOn(h, c)
    case BeginRemove(c) => CanBeginOn(h, c)
    case Advance(s, ch) => s in h.calls && CanAdvance(h, s, h.calls[s], ch)
    case EngineWrites(s) => Awaiting(h, s)
    case EngineExecs(s) => Awaiting(h, s)
    case EngineDies(s) => Awaiting(h, s)
    case ProcExits(pid, _) => pid in h.procs && h.procs[pid].exit.None?
    case InitReaps(pid) => pid in h.procs && h.procs[pid].exit.Some? && !h.procs[pid].held
    case ForeignSpawn(pid) => pid > 0 && pid !in h.procs
    case ReaperWakes(c, waitOk, _) =>
      c in h.reapers && h.reapers[c].Waiting? && (waitOk ==> Zombie(h, h.reapers[c].pid))
    case ReaperRecords(c) => c in h.reapers && h.reapers[c].Holding?
    case Crash => true
    case Boot => h.phase.Down?
    case LoadContainer(c, _) => h.phase.Loading? && c in h.phase.todo && c in h.diskC
    case LoadSandboxes => h.phase.Loading? && h.phase.todo == {}
  }

  predicate Zombie(h: Host, pid: nat) {
    pid in h.procs && h.procs[pid].exit.Some?
  }

  // A call blocks only in a process wait and in the readiness wait; a mint is fresh.
  predicate CanAdvance(h: Host, s: SandboxId, pc: Pc, ch: Choice) {
    match pc
    case RmSbCollect => Lists(h, s, ch.listing)
    case CreateGate(_) => ch.newId !in h.owner
    case StartSpawn(_, _) => ch.ok ==> ch.pid > 0 && ch.pid !in h.procs
    case StartAwait(_, _, pipe) => ch.poll == Readable ==> pipe.bytes > 0 || !pipe.open
    case StartReap(_, pid, _, _) => pid in h.procs ==> h.procs[pid].exit.Some?
    case _ => true
  }

  function Apply(h: Host, step: Step): Host
    requires Enabled(h, step)
  {
    match step
    case BeginRunSandbox(sb) => h.(calls := h.calls[sb.id := RunPersist(sb)], pods := h.pods + {sb.id})
    case BeginStopSandbox(s) => h.(calls := h.calls[s := StopSbLock(false)])
    case BeginRemoveSandbox(s) => h.(calls := h.calls[s := StopSbLock(true)])
    case BeginCreate(s, config) => h.(calls := h.calls[s := CreateGate(config)])
    case BeginStart(c) => h.(calls := h.calls[h.owner[c] := StartCheck(c)])
    case BeginStop(c, grace) => h.(calls := h.calls[h.owner[c] := StopLook(c, grace, StopReturn)])
    case BeginRemove(c) => h.(calls := h.calls[h.owner[c] := RmLook(c, Return)])
    case Advance(s, ch) => AdvanceCall(h, s, ch)
    case EngineWrites(s) =>
      var p := h.calls[s];
      h.(calls := h.calls[s := p.(pipe := p.pipe.(bytes := p.pipe.bytes + 1))])
    case EngineExecs(s) =>
      var p := h.calls[s];
      h.(calls := h.calls[s := p.(pipe := p.pipe.(open := false))], execd := h.execd + {Launch(p.cid, p.pid)})
    case EngineDies(s) =>
      var p := h.calls[s];
      h.(calls := h.calls[s := p.(pipe := p.pipe.(open := false))],
         silent := if p.pipe.bytes == 0 then h.silent + {Launch(p.cid, p.pid)} else h.silent)
    case ProcExits(pid, status) => h.(procs := h.procs[pid := h.procs[pid].(exit := Some(status))])
    case InitReaps(pid) => h.(procs := h.procs - {pid})
    case ForeignSpawn(pid) => h.(procs := h.procs[pid := Proc(None, false, None)])
    case ReaperWakes(c, waitOk, now) =>
      var pid := h.reapers[c].pid;
      if waitOk then
        h.(reapers := h.reapers[c := Holding(h.procs[pid].exit.value, now)], procs := h.procs - {pid})
      else
        h.(reapers := h.reapers[c := Holding(ExitStatus(-1, "wait-error"), now)])
    case ReaperRecords(c) => RecordExit(h, c)
    case Crash => CrashHost(h)
    case Boot => h.(phase := Loading(h.diskC.Keys))
    case LoadContainer(c, now) =>
      var rec := Recovered(h.diskC[c], h.diskC[c].pid in h.procs, now);
      h.(diskC := h.diskC[rec.id := rec], cacheC := h.cacheC[rec.id := rec], phase := Loading(h.phase.todo - {c}))
    case LoadSandboxes => h.(cacheS := h.diskS, phase := Up)
  }

  // The backend process dies: everything in memory is lost, its children go to init.
  function CrashHost(h: Host): Host {
    h.(cacheC := map[], cacheS := map[], phase := Down, calls := map[], reapers := map[],
       procs := map pid | pid in h.procs :: h.procs[pid].(held := false))
  }

  // The reaper's lock section: the disk write happens while the lock is held.
  function RecordExit(h: Host, c: ContainerId): Host
    requires c in h.reapers && h.reapers[c].Holding?
  {
    var r := h.reapers[c];
    var h' := h.(reapers := h.reapers - {c});
    if c in h.cacheC && h.cacheC[c].state == Running then
      var rec := WithExit(h.cacheC[c], r.status.code, r.status.reason, r.at);
      h'.(cacheC := h.cacheC[c := rec], diskC := h.diskC[c := rec])
    else
      h'
  }

  // ── One step of the call in flight on pod s ───────────────────────────────

  function SetCall(h: Host, s: SandboxId, next: Option<Pc>): Host {
    h.(calls := if next.Some? then h.calls[s := next.value] else h.calls - {s})
  }

  predicate HasNetns(sb: Option<SandboxRecord>) {
    sb.Some? && sb.value.netnsPath.Some?
  }

  // The cascade's snapshot: the pod's containers as the cache lists them, in some order.
  predicate Lists(h: Host, s: SandboxId, ids: seq<ContainerId>) {
    && (forall c | c in ids :: c in h.cacheC && h.cacheC[c].sandbox == s)
    && (forall c | c in h.cacheC && h.cacheC[c].sandbox == s :: c in ids)
  }

  // The container a control point works on.
  function Subject(pc: Pc): Option<ContainerId> {
    match pc
    case CreatePersist(rec) => Some(rec.id)
    case CreateInsert(rec) => Some(rec.id)
    case StartCheck(c) => Some(c)
    case StartIntent(c, _) => Some(c)
    case StartPersistIntent(rec, _) => Some(rec.id)
    case StartSpawn(c, _) => Some(c)
    case StartAwait(c, _, _) => Some(c)
    case StartReap(c, _, _, _) => Some(c)
    case StartFail(c, _, _) => Some(c)
    case StartFailPersist(rec) => Some(rec.id)
    case StartRun(c, _, _) => Some(c)
    case StartPersistRun(rec, _) => Some(rec.id)
    case StartReaper(c, _) => Some(c)
    case StopLook(c, _, _) => Some(c)
    case StopWait(c, _) => Some(c)
    case StopDefensive(c, _, _) => Some(c)
    case StopPersist(rec, _) => Some(rec.id)
    case RmLook(c, _) => Some(c)
    case RmDrop(c, _) => Some(c)
    case RmUnlink(c, _) => Some(c)
    case _ => None
  }

  function Cached(h: Host, pc: Pc): Option<ContainerRecord> {
    if Subject(pc).Some? then Get(h.cacheC, Subject(pc).value) else None
  }

  // A step of a call is the control step `NextPc` together with its effect on each store.
  function AdvanceCall(h: Host, s: SandboxId, ch: Choice): Host
    requires s in h.calls && CanAdvance(h, s, h.calls[s], ch)
  {
    var pc := h.calls[s];
    var next := NextPc(Cached(h, pc), Get(h.cacheS, s), s, pc, ch);
    h.(diskC := NextDiskC(h.diskC, pc),
       diskS := NextDiskS(h.diskS, s, pc),
       cacheC := NextCacheC(h.cacheC, pc, next),
       cacheS := NextCacheS(h.cacheS, s, pc, next),
       reapers := if pc.StartReaper? then h.reapers[pc.cid := Waiting(pc.pid)] else h.reapers,
       procs := NextProcs(h.procs, pc, ch),
       execd := NextLaunches(h.execd, pc, ch),
       silent := NextLaunches(h.silent, pc, ch),
       owner := if next.Some? && next.value.CreatePersist? then h.owner[next.value.snap.id := s] else h.owner,
       calls := if next.Some? then h.calls[s := next.value] else h.calls - {s})
  }

  // The record a persist point writes: tmp file, fsync, rename, outside the lock.
  function Persists(pc: Pc): Option<ContainerRecord> {
    match pc
    case CreatePersist(rec) => Some(rec)
    case StartPersistIntent(rec, _) => Some(rec)
    case StartFailPersist(rec) => Some(rec)
    case StartPersistRun(rec, _) => Some(rec)
    case StopPersist(rec, _) => Some(rec)
    case _ => None
  }

  function NextDiskC(diskC: map<ContainerId, ContainerRecord>, pc: Pc): map<ContainerId, ContainerRecord> {
    if Persists(pc).Some? then diskC[Persists(pc).value.id := Persists(pc).value]
    else if pc.RmUnlink? then diskC - {pc.cid}
    else diskC
  }

  function NextDiskS(diskS: map<SandboxId, SandboxRecord>, s: SandboxId, pc: Pc): map<SandboxId, SandboxRecord> {
    if pc.RunPersist? || pc.StopSbPersist? then diskS[pc.sb.id := pc.sb]
    else if pc.RmSbUnlink? then diskS - {s}
    else diskS
  }

  // A lock section that edits a cached record hands the same record to the persist after it.
  function NextCacheC(cacheC: map<ContainerId, ContainerRecord>, pc: Pc,
                      next: Option<Pc>): map<ContainerId, ContainerRecord>
  {
    if pc.CreateInsert? then cacheC[pc.snap.id := pc.snap]
    else if pc.RmDrop? then cacheC - {pc.cid}
    else if next.Some? && !next.value.CreatePersist? && Persists(next.value).Some? then
      cacheC[Persists(next.value).value.id := Persists(next.value).value]
    else cacheC
  }

  function NextCacheS(cacheS: map<SandboxId, SandboxRecord>, s: SandboxId, pc: Pc,
                      next: Option<Pc>): map<SandboxId, SandboxRecord>
  {
    if pc.RunInsert? then cacheS[pc.sb.id := pc.sb]
    else if next.Some? && next.value.StopSbPersist? then cacheS[s := next.value.sb]
    else if next == Some(RmSbUnlink) then cacheS - {s}
    else cacheS
  }

  function NextProcs(procs: map<nat, Proc>, pc: Pc, ch: Choice): map<nat, Proc> {
    if pc.StartSpawn? && ch.ok then procs[ch.pid := Proc(Some(pc.cid), true, None)]
    else if pc.StartReap? then procs - {pc.pid}
    else procs
  }

  // A spawn under a pid this container had before starts a launch of its own.
  function NextLaunches(launches: set<Launch>, pc: Pc, ch: Choice): set<Launch> {
    if pc.StartSpawn? && ch.ok then launches - {Launch(pc.cid, ch.pid)} else launches
  }

  // ── Control ───────────────────────────────────────────────────────────────

  // Where the call goes next, given the cached records of its container and of its pod;
  // None when it returns.
  function NextPc(rec: Option<ContainerRecord>, sb: Option<SandboxRecord>, s: SandboxId, pc: Pc,
                  ch: Choice): Option<Pc>
  {
    if InSandbox(pc) then SandboxNext(sb, pc, ch)
    else if InCreate(pc) then CreateNext(sb, s, pc, ch)
    else if InStop(pc) then StopNext(rec, pc, ch)
    else if InRemove(pc) then RemoveNext(rec, pc)
    else StartNext(rec, sb, pc, ch)
  }

  predicate InSandbox(pc: Pc) {
    || pc.RunPersist? || pc.RunInsert? || pc.StopSbLock? || pc.StopSbPersist?
    || pc.RmSbCollect? || pc.RmSbLoop? || pc.RmSbDrop? || pc.RmSbUnlink?
  }

  predicate InCreate(pc: Pc) {
    pc.CreateGate? || pc.CreatePersist? || pc.CreateInsert?
  }

  predicate InStop(pc: Pc) {
    pc.StopLook? || pc.StopWait? || pc.StopDefensive? || pc.StopPersist?
  }

  predicate InRemove(pc: Pc) {
    pc.RmLook? || pc.RmDrop? || pc.RmUnlink?
  }

  predicate InStart(pc: Pc) {
    !InSandbox(pc) && !InCreate(pc) && !InStop(pc) && !InRemove(pc)
  }

  // run_sandbox, stop_sandbox, remove_sandbox
  function SandboxNext(sb: Option<SandboxRecord>, pc: Pc, ch: Choice): Option<Pc>
    requires InSandbox(pc)
  {
    match pc
    case RunPersist(made) => Some(RunInsert(made))
    case RunInsert(_) => None
    case StopSbLock(cascade) =>
      if sb.None? || sb.value.state == NotReady then AfterStopSandbox(cascade)
      else Some(StopSbPersist(sb.value.(state := NotReady), cascade))
    case StopSbPersist(_, cascade) => AfterStopSandbox(cascade)
    case RmSbCollect => if sb.None? then None else Some(RmSbLoop(ch.listing))
    case RmSbLoop(todo) =>
      Some(if todo == [] then RmSbDrop else StopLook(todo[0], 0, ThenRemove(NextContainer(todo[1..]))))
    case RmSbDrop => if sb.None? then None else Some(RmSbUnlink)
    case RmSbUnlink => None
  }

  function AfterStopSandbox(cascade: bool): Option<Pc> {
    if cascade then Some(RmSbCollect) else None
  }

  // create_container
  function CreateNext(sb: Option<SandboxRecord>, s: SandboxId, pc: Pc, ch: Choice): Option<Pc>
    requires InCreate(pc)
  {
    match pc
    case CreateGate(config) =>
      if sb.None? || sb.value.state != SandboxState.Ready then None
      else Some(CreatePersist(NewContainer(ch.newId, s, config, ch.now)))
    case CreatePersist(rec) => Some(CreateInsert(rec))
    case CreateInsert(_) => None
  }

  // start_container
  function StartNext(rec: Option<ContainerRecord>, sb: Option<SandboxRecord>, pc: Pc, ch: Choice): Option<Pc>
    requires InStart(pc)
  {
    match pc
    case StartCheck(c) =>
      if rec.None? || rec.value.state != Created then None else Some(StartIntent(c, HasNetns(sb)))
    case StartIntent(c, ns) =>
      if !ch.ok || rec.None? then None   // the plan, the pipe or the log failed
      else Some(StartPersistIntent(WithIntent(rec.value, ns, ch.now), ns))
    case StartPersistIntent(snap, ns) => Some(StartSpawn(snap.id, ns))
    case StartSpawn(c, ns) =>
      Some(if !ch.ok then StartFail(c, -1, "spawn-failed")
           else if ns then StartAwait(c, ch.pid, Pipe(0, true))
           else StartRun(c, ch.pid, false))
    case StartAwait(c, pid, pipe) =>
      Some(if ch.poll == TimedOut then StartReap(c, pid, -1, "start-timeout")
           else if ch.poll == Readable && pipe.bytes == 0 then StartRun(c, pid, true)
           else StartReap(c, pid, 127, "exec-failed"))
    case StartReap(c, pid, code, reason) => Some(StartFail(c, code, reason))
    case StartFail(c, code, reason) =>
      if rec.None? then None
      else Some(StartFailPersist(WithStartFailure(rec.value, code, reason, ch.note, ch.now)))
    case StartFailPersist(_) => None
    case StartRun(c, pid, ns) =>
      if rec.None? then None else Some(StartPersistRun(WithPid(rec.value, pid, ns), pid))
    case StartPersistRun(snap, pid) => Some(StartReaper(snap.id, pid))
    case StartReaper(_, _) => None
  }

  // stop_container: signals are process events; the polling wait may time out.
  function StopNext(rec: Option<ContainerRecord>, pc: Pc, ch: Choice): Option<Pc>
    requires InStop(pc)
  {
    match pc
    case StopLook(c, grace, stopped) =>
      if rec.None? || rec.value.state != Running then AfterStopping(c, stopped)
      else if (rec.value.engine == "ns" && rec.value.cgroupName != "") || rec.value.pid > 0 then
        Some(StopWait(c, stopped))
      else Some(StopDefensive(c, grace, stopped))
    case StopWait(c, stopped) => AfterStopping(c, stopped)
    case StopDefensive(c, grace, stopped) =>
      if rec.Some? && rec.value.state == Running then
        Some(StopPersist(WithDefensiveStop(rec.value, grace, ch.now), stopped))
      else AfterStopping(c, stopped)
    case StopPersist(snap, stopped) => AfterStopping(snap.id, stopped)
  }

  function AfterStopping(c: ContainerId, stopped: AfterStop): Option<Pc> {
    match stopped
    case StopReturn => None
    case ThenRemove(after) => Some(RmLook(c, after))
    case ThenDrop(after) => Some(RmDrop(c, after))
  }

  // remove_container
  function RemoveNext(rec: Option<ContainerRecord>, pc: Pc): Option<Pc>
    requires InRemove(pc)
  {
    match pc
    case RmLook(c, after) =>
      if rec.None? then AfterRemoval(after)
      else if rec.value.state == Running then Some(StopLook(c, 0, ThenDrop(after)))
      else Some(RmDrop(c, after))
    case RmDrop(c, after) => Some(RmUnlink(c, after))
    case RmUnlink(_, after) => AfterRemoval(after)
  }

  function AfterRemoval(after: After): Option<Pc> {
    match after
    case Return => None
    case NextContainer(todo) => Some(RmSbLoop(todo))
  }
}
