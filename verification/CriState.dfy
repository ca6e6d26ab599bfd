/**
 Vocabulary of the CRI backend: persisted records, the control points of every mutating
 call, and the state of one host (disk, cache, calls in flight, reaper threads, processes).
 */
module CriState {
  import opened Options

  function Get<K, V>(m: map<K, V>, k: K): Option<V> {
    if k in m then Some(m[k]) else None
  }

  datatype ContainerId = ContainerId(name: string)
  datatype SandboxId = SandboxId(name: string)

  datatype ContainerState = Created | Running | Exited | Unknown
  datatype SandboxState = Ready | NotReady

  datatype ContainerRecord = ContainerRecord(
    id: ContainerId, sandbox: SandboxId, config: string, state: ContainerState,
    createdAt: int, startedAt: int, finishedAt: int, exitCode: int,
    reason: string, message: string, pid: nat, engine: string, cgroupName: string)

  datatype SandboxRecord = SandboxRecord(
    id: SandboxId, config: string, state: SandboxState, createdAt: int,
    ip: Option<string>, netnsPath: Option<string>)

  // ── The edits each lock section makes to a record ─────────────────────────

  function NewContainer(id: ContainerId, sandbox: SandboxId, config: string, now: int): ContainerRecord {
    ContainerRecord(id, sandbox, config, Created, now, 0, 0, 0, "", "", 0, "", "")
  }

  // Start intent: the host path claims Running before it spawns, the ns path stays Created.
  function WithIntent(rec: ContainerRecord, ns: bool, now: int): ContainerRecord {
    rec.(state := if ns then Created else Running, startedAt := now, pid := 0, reason := "starting")
  }

  function WithPid(rec: ContainerRecord, pid: nat, ns: bool): ContainerRecord {
    var r := rec.(state := Running, pid := pid, reason := "");
    if ns then r.(engine := "ns", cgroupName := "lightr-cri-" + rec.id.name) else r
  }

  function WithStartFailure(rec: ContainerRecord, code: int, reason: string, message: string,
                            now: int): ContainerRecord
  {
    rec.(state := Exited, finishedAt := now, exitCode := code, reason := reason, message := message)
  }

  function WithExit(rec: ContainerRecord, code: int, reason: string, at: int): ContainerRecord {
    rec.(state := Exited, exitCode := code, finishedAt := at, reason := reason)
  }

  function WithDefensiveStop(rec: ContainerRecord, grace: int, now: int): ContainerRecord {
    rec.(state := Exited, finishedAt := now, exitCode := if grace > 0 then 128 + 15 else 128 + 9, reason := "stopped")
  }

  // Reconciliation of one record on open: a Running record needs a live pid.
  function Recovered(rec: ContainerRecord, alive: bool, now: int): ContainerRecord {
    if rec.state == Running && rec.pid > 0 && !alive then
      WithExit(rec, -1, "lost-exit-reaped-elsewhere", now)
    else if rec.state == Running && rec.pid == 0 then
      WithExit(rec, -1, "lost-start-window", now)
    else
      rec
  }

  // ── Control points ────────────────────────────────────────────────────────

  // What follows the removal of one container: return to the client, or go on
  // with the cascade of `remove_sandbox`.
  datatype After = Return | NextContainer(todo: seq<ContainerId>)

  // What follows `stop_container`: return, call `remove_container`, or resume it.
  datatype AfterStop = StopReturn | ThenRemove(after: After) | ThenDrop(after: After)

  // The exec-readiness pipe of an ns start.
  datatype Pipe = Pipe(bytes: nat, open: bool)

  // The point a mutating call has reached. Each point is one lock section, one
  // persist, one unlink, or one blocking wait.
  datatype Pc =
    | RunPersist(sb: SandboxRecord)
    | RunInsert(sb: SandboxRecord)
    | StopSbLock(cascade: bool)
    | StopSbPersist(sb: SandboxRecord, cascade: bool)
    | RmSbCollect
    | RmSbLoop(todo: seq<ContainerId>)
    | RmSbDrop
    | RmSbUnlink
    | CreateGate(config: string)
    | CreatePersist(snap: ContainerRecord)
    | CreateInsert(snap: ContainerRecord)
    | StartCheck(cid: ContainerId)
    | StartIntent(cid: ContainerId, ns: bool)
    | StartPersistIntent(snap: ContainerRecord, ns: bool)
    | StartSpawn(cid: ContainerId, ns: bool)
    | StartAwait(cid: ContainerId, pid: nat, pipe: Pipe)
    | StartReap(cid: ContainerId, pid: nat, code: int, reason: string)
    | StartFail(cid: ContainerId, code: int, reason: string)
    | StartFailPersist(snap: ContainerRecord)
    | StartRun(cid: ContainerId, pid: nat, ns: bool)
    | StartPersistRun(snap: ContainerRecord, pid: nat)
    | StartReaper(cid: ContainerId, pid: nat)
    | StopLook(cid: ContainerId, grace: int, stopped: AfterStop)
    | StopWait(cid: ContainerId, stopped: AfterStop)
    | StopDefensive(cid: ContainerId, grace: int, stopped: AfterStop)
    | StopPersist(snap: ContainerRecord, stopped: AfterStop)
    | RmLook(cid: ContainerId, after: After)
    | RmDrop(cid: ContainerId, after: After)
    | RmUnlink(cid: ContainerId, after: After)

  // ── The host ──────────────────────────────────────────────────────────────

  datatype ExitStatus = ExitStatus(code: int, reason: string)

  // A process: the container it was spawned for, whether this backend holds its
  // child handle, and its status once it is a zombie.
  datatype Proc = Proc(owner: Option<ContainerId>, held: bool, exit: Option<ExitStatus>)

  // A process spawned for a container.
  datatype Launch = Launch(cid: ContainerId, pid: nat)

  // A detached reaper: blocked in wait, or holding the status before the lock.
  datatype Reaper = Waiting(pid: nat) | Holding(status: ExitStatus, at: int)

  datatype Phase = Down | Loading(todo: set<ContainerId>) | Up

  datatype Host = Host(
    diskC: map<ContainerId, ContainerRecord>, diskS: map<SandboxId, SandboxRecord>,
    cacheC: map<ContainerId, ContainerRecord>, cacheS: map<SandboxId, SandboxRecord>,
    phase: Phase,
    calls: map<SandboxId, Pc>,               // at most one mutating call per pod
    reapers: map<ContainerId, Reaper>,
    procs: map<nat, Proc>,
    owner: map<ContainerId, SandboxId>,      // every container id ever minted, with its pod
    pods: set<SandboxId>,                    // every sandbox id ever minted
    execd: set<Launch>,                      // latest launches whose workload has exec'd
    silent: set<Launch>)                     // latest launches whose engine died before exec without a byte

  const EMPTY_HOME: Host :=
    Host(map[], map[], map[], map[], Down, map[], map[], map[], map[], {}, {}, {})
}
