/**
 The inductive invariant of the step machine. It is local: one law per container over what
 disk, cache, reaper and processes hold for it, one law per pod over its sandbox record and
 its call, and one law tying a removal cascade to the pod's stored containers.
 */
module CriInvariant {
  import opened Options
  import opened CriState
  import opened CriSteps

  // ── Local views ───────────────────────────────────────────────────────────

  // Everything the host holds for one container.
  datatype Cell = Cell(
    disk: Option<ContainerRecord>, cache: Option<ContainerRecord>, reaper: Option<Reaper>,
    launched: set<nat>, kids: set<nat>)

  // The two copies of one sandbox record.
  datatype Pod = Pod(disk: Option<SandboxRecord>, cache: Option<SandboxRecord>)

  // Processes this backend spawned for c and has not reaped.
  function Kids(h: Host, c: ContainerId): set<nat> {
    set pid | pid in h.procs && h.procs[pid].owner == Some(c) && h.procs[pid].held
  }

  // Processes of c whose readiness pipe closed with no byte in it.
  function Launched(h: Host, c: ContainerId): set<nat> {
    set l | l in h.execd + h.silent && l.cid == c :: l.pid
  }

  function CellOf(h: Host, c: ContainerId): Cell {
    Cell(Get(h.diskC, c), Get(h.cacheC, c), Get(h.reapers, c), Launched(h, c), Kids(h, c))
  }

  function PodOf(h: Host, s: SandboxId): Pod {
    Pod(Get(h.diskS, s), Get(h.cacheS, s))
  }

  predicate Of(h: Host, c: ContainerId, s: SandboxId) {
    c in h.owner && h.owner[c] == s
  }

  // ── Versions of a record ──────────────────────────────────────────────────

  function Rank(state: ContainerState): nat {
    match state
    case Created => 0
    case Running => 1
    case Exited => 2
    case Unknown => 3
  }

  // b is a later version of the record a: same container, state no earlier, a not terminal.
  predicate Follows(a: ContainerRecord, b: ContainerRecord) {
    && b.id == a.id && b.sandbox == a.sandbox && b.config == a.config && b.createdAt == a.createdAt
    && Rank(a.state) <= Rank(b.state) && Rank(a.state) < 2 && Rank(b.state) <= 2
  }

  // ── One container ─────────────────────────────────────────────────────────

  // What a stored container record satisfies at every instant, in every phase.
  predicate DiskLaw(c: ContainerId, s: SandboxId, cell: Cell, pod: Pod) {
    cell.disk.Some? ==>
      var rec := cell.disk.value;
      && rec.id == c && rec.sandbox == s && pod.disk.Some?
      && rec.state != Unknown
      && (rec.state == Running && HasNetns(pod.disk) ==> rec.pid in cell.launched && rec.pid > 0)
  }

  // How far apart cache and disk may be for one container, given its pod's call.
  datatype Pending =
    | Settled                          // cache == disk
    | Minted                           // neither has it yet
    | Stored(rec: ContainerRecord)     // on disk, not yet cached
    | Behind(snap: ContainerRecord)    // cached, disk one version behind
    | Dropped                          // out of the cache, perhaps still on disk

  function PendingOn(pc: Option<Pc>, c: ContainerId): Pending {
    if pc.None? then Settled else
      match pc.value
      case CreatePersist(rec) => if rec.id == c then Minted else Settled
      case CreateInsert(rec) => if rec.id == c then Stored(rec) else Settled
      case StartPersistIntent(rec, _) => if rec.id == c then Behind(rec) else Settled
      case StartFailPersist(rec) => if rec.id == c then Behind(rec) else Settled
      case StartPersistRun(rec, _) => if rec.id == c then Behind(rec) else Settled
      case StopPersist(rec, _) => if rec.id == c then Behind(rec) else Settled
      case RmUnlink(cid, _) => if cid == c then Dropped else Settled
      case _ => Settled
  }

  predicate SyncLaw(cell: Cell, pending: Pending) {
    match pending
    case Settled => cell.cache == cell.disk
    case Minted => cell.cache.None? && cell.disk.None?
    case Stored(rec) => cell.cache.None? && cell.disk == Some(rec)
    case Behind(snap) => cell.cache == Some(snap) && cell.disk.Some? && Follows(cell.disk.value, snap)
    case Dropped => cell.cache.None?
  }

  // A reaper's container was started; while it waits, its child is unreaped.
  predicate ReaperLaw(cell: Cell) {
    cell.reaper.Some? ==>
      && (cell.cache.Some? ==> cell.cache.value.state == Running || cell.cache.value.state == Exited)
      && (cell.reaper.value.Waiting? ==> cell.reaper.value.pid in cell.kids)
  }

  predicate InCall(pc: Option<Pc>, c: ContainerId) {
    pc.Some? && Subject(pc.value) == Some(c)
  }

  predicate CachedAs(cell: Cell, state: ContainerState) {
    cell.cache.Some? && cell.cache.value.state == state
  }

  // A start past its checks: no reaper yet; ns stays Created, host already claims Running.
  predicate Fresh(cell: Cell, pod: Pod, ns: bool) {
    cell.reaper.None? && CachedAs(cell, if ns then Created else Running) && ns == HasNetns(pod.disk)
  }

  // What the call working on this container knows about it at each control point.
  predicate CallLaw(cell: Cell, pod: Pod, pc: Pc) {
    match pc
    case CreatePersist(rec) => rec.state == Created && cell.reaper.None?
    case CreateInsert(rec) => rec.state == Created && cell.reaper.None?
    case StartIntent(_, ns) => cell.reaper.None? && CachedAs(cell, Created) && ns == HasNetns(pod.disk)
    case StartPersistIntent(rec, ns) =>
      Fresh(cell, pod, ns) && rec.pid == 0 && cell.disk.Some? && cell.disk.value.state == Created
    case StartSpawn(_, ns) => Fresh(cell, pod, ns)
    case StartAwait(_, pid, pipe) =>
      Fresh(cell, pod, true) && pid in cell.kids && pid > 0 && (pipe.bytes == 0 && !pipe.open ==> pid in cell.launched)
    case StartReap(_, pid, _, _) => Fresh(cell, pod, true) && pid in cell.kids
    case StartFail(_, _, _) => Fresh(cell, pod, HasNetns(pod.disk))
    case StartFailPersist(rec) => rec.state == Exited && cell.reaper.None?
    case StartRun(_, pid, ns) => Fresh(cell, pod, ns) && pid in cell.kids && pid > 0 && (ns ==> pid in cell.launched)
    case StartPersistRun(rec, pid) =>
      && rec.state == Running && rec.pid == pid > 0 && cell.reaper.None? && pid in cell.kids
      && (HasNetns(pod.disk) ==> pid in cell.launched)
    case StartReaper(_, pid) =>
      cell.reaper.None? && CachedAs(cell, Running) && cell.cache.value.pid == pid > 0 && pid in cell.kids
    case StopDefensive(_, _, _) => false   // a Running record without a pid never gets here
    case StopPersist(_, _) => false
    case _ => true
  }

  // A cached Running record without a pid exists only inside its own start call.
  predicate StartWindow(c: ContainerId, cell: Cell, pc: Option<Pc>) {
    CachedAs(cell, Running) && cell.cache.value.pid == 0 ==>
      && InCall(pc, c)
      && (pc.value.StartPersistIntent? || pc.value.StartSpawn? || pc.value.StartFail? || pc.value.StartRun?)
  }

  predicate CellLaw(c: ContainerId, s: SandboxId, cell: Cell, pod: Pod, pc: Option<Pc>) {
    && DiskLaw(c, s, cell, pod)
    && SyncLaw(cell, PendingOn(pc, c))
    && ReaperLaw(cell)
    && StartWindow(c, cell, pc)
    && (InCall(pc, c) ==> CallLaw(cell, pod, pc.value))
  }

  // ── One pod ───────────────────────────────────────────────────────────────

  predicate PodLaw(s: SandboxId, pod: Pod, pc: Option<Pc>) {
    && (pod.disk.Some? ==> pod.disk.value.id == s)
    && if pc.None? then pod.cache == pod.disk else
         match pc.value
         case RunPersist(sb) => pod.cache.None? && pod.disk.None? && sb.id == s && sb.state == SandboxState.Ready
         case RunInsert(sb) => pod.cache.None? && pod.disk == Some(sb) && sb.id == s
         case StopSbPersist(sb, _) =>
           pod.cache == Some(sb) && pod.disk.Some? && sb == pod.disk.value.(state := NotReady)
         case RmSbUnlink => pod.cache.None?
         case CreatePersist(rec) =>
           pod.cache == pod.disk && pod.disk.Some? && pod.disk.value.state == SandboxState.Ready && rec.sandbox == s
         case _ => pod.cache == pod.disk
  }

  // The containers a removal cascade has still to take off the disk.
  function Left(pc: Pc): Option<seq<ContainerId>> {
    match pc
    case RmSbLoop(todo) => Some(todo)
    case RmSbDrop => Some([])
    case RmSbUnlink => Some([])
    case StopLook(c, _, stopped) => LeftStop(c, stopped)
    case StopWait(c, stopped) => LeftStop(c, stopped)
    case RmLook(c, after) => LeftRemove(c, after)
    case RmDrop(c, after) => LeftRemove(c, after)
    case RmUnlink(c, after) => LeftRemove(c, after)
    case _ => None
  }

  function LeftRemove(c: ContainerId, after: After): Option<seq<ContainerId>> {
    match after
    case Return => None
    case NextContainer(todo) => Some([c] + todo)
  }

  function LeftStop(c: ContainerId, stopped: AfterStop): Option<seq<ContainerId>> {
    match stopped
    case StopReturn => None
    case ThenRemove(after) => LeftRemove(c, after)
    case ThenDrop(after) => LeftRemove(c, after)
  }

  ghost predicate CascadeLaw(h: Host, s: SandboxId, pc: Pc) {
    && (Subject(pc).Some? ==> Of(h, Subject(pc).value, s))
    && (Left(pc).Some? ==>
          && (forall c | c in Left(pc).value :: Of(h, c, s))
          && (forall c | c in h.diskC && Of(h, c, s) :: c in Left(pc).value))
  }

  // ── The invariant ─────────────────────────────────────────────────────────

  predicate LoadLaw(h: Host)
    requires h.phase.Loading?
  {
    && h.cacheS == map[] && h.phase.todo <= h.diskC.Keys && h.cacheC.Keys == h.diskC.Keys - h.phase.todo
    && (forall c | c in h.cacheC ::
          h.cacheC[c] == h.diskC[c] && (h.cacheC[c].state == Running ==> h.cacheC[c].pid > 0))
  }

  ghost predicate Base(h: Host) {
    && h.diskC.Keys <= h.owner.Keys && h.cacheC.Keys <= h.owner.Keys && h.reapers.Keys <= h.owner.Keys
    && h.diskS.Keys <= h.pods && h.cacheS.Keys <= h.pods && h.calls.Keys <= h.pods
    && (forall c | c in h.owner :: h.owner[c] in h.pods)
    && (!h.phase.Up? ==> h.calls == map[] && h.reapers == map[])
    && (h.phase.Down? ==> h.cacheC == map[] && h.cacheS == map[])
    && (h.phase.Loading? ==> LoadLaw(h))
  }

  ghost predicate DiskInv(h: Host) {
    && (forall c | c in h.owner :: DiskLaw(c, h.owner[c], CellOf(h, c), PodOf(h, h.owner[c])))
    && (forall s | s in h.diskS :: h.diskS[s].id == s)
  }

  ghost predicate Live(h: Host) {
    && (forall c | c in h.owner :: CellLaw(c, h.owner[c], CellOf(h, c), PodOf(h, h.owner[c]), Get(h.calls, h.owner[c])))
    && (forall s | s in h.pods :: PodLaw(s, PodOf(h, s), Get(h.calls, s)))
    && (forall s | s in h.calls :: CascadeLaw(h, s, h.calls[s]))
  }

  ghost predicate Inv(h: Host) {
    Base(h) && DiskInv(h) && (h.phase.Up? ==> Live(h))
  }
}
