/**
 Every step of the machine keeps the invariant.
 */
module CriPreserve {
  import opened Options
  import opened CriState
  import opened CriSteps
  import opened CriInvariant

  // ── A step of one pod's call ──────────────────────────────────────────────

  // h' differs from h only in the sandbox record and the call of pod s and in container oc.
  ghost predicate Touched(h: Host, h': Host, s: SandboxId, oc: Option<ContainerId>) {
    && h'.phase == h.phase && h.pods <= h'.pods <= h.pods + {s}
    && (oc.Some? ==> Of(h', oc.value, s) && (oc.value in h.owner ==> h.owner[oc.value] == s))
    && (forall x | Some(x) != oc :: Get(h'.owner, x) == Get(h.owner, x) && CellOf(h', x) == CellOf(h, x))
    && (forall t | t != s :: PodOf(h', t) == PodOf(h, t) && Get(h'.calls, t) == Get(h.calls, t))
  }

  predicate Concerns(pc: Option<Pc>, oc: Option<ContainerId>) {
    pc.Some? && Subject(pc.value).Some? ==> Subject(pc.value) == oc
  }

  // The pod's stored containers still find their sandbox record, with the same netns.
  predicate KeepsPod(cell: Cell, pod: Pod, pod': Pod) {
    pod'.disk == pod.disk || cell.disk.None? || (pod'.disk.Some? && HasNetns(pod'.disk) == HasNetns(pod.disk))
  }

  lemma OtherCell(x: ContainerId, s: SandboxId, cell: Cell, pod: Pod, pod': Pod, pc: Option<Pc>, pc': Option<Pc>)
    requires CellLaw(x, s, cell, pod, pc) && KeepsPod(cell, pod, pod')
    requires !InCall(pc, x) && !InCall(pc', x)
    ensures CellLaw(x, s, cell, pod', pc')
  {
  }

  ghost predicate StepOk(h: Host, h': Host, s: SandboxId, oc: Option<ContainerId>) {
    && Touched(h, h', s, oc) && s in h'.pods
    && (|| (Concerns(Get(h.calls, s), oc) && Concerns(Get(h'.calls, s), oc))
        || (Get(h'.calls, s) == Get(h.calls, s) && PodOf(h', s) == PodOf(h, s)))
    && (forall x | Of(h, x, s) :: KeepsPod(CellOf(h, x), PodOf(h, s), PodOf(h', s)))
    && (oc.Some? ==> CellLaw(oc.value, s, CellOf(h', oc.value), PodOf(h', s), Get(h'.calls, s)))
    && PodLaw(s, PodOf(h', s), Get(h'.calls, s))
    && (s in h'.calls ==> CascadeLaw(h', s, h'.calls[s]))
  }

  lemma StepBase(h: Host, h': Host, s: SandboxId, oc: Option<ContainerId>)
    requires Base(h) && h.phase.Up? && Touched(h, h', s, oc) && s in h'.pods
    ensures Base(h')
  {
    forall x | x in h'.diskC || x in h'.cacheC || x in h'.reapers ensures x in h'.owner {
      if Some(x) != oc {
        assert CellOf(h', x) == CellOf(h, x) && Get(h'.owner, x) == Get(h.owner, x);
      }
    }
    forall x | x in h'.owner ensures h'.owner[x] in h'.pods {
      if Some(x) != oc {
        assert Get(h'.owner, x) == Get(h.owner, x);
      }
    }
    forall t | t in h'.diskS || t in h'.cacheS || t in h'.calls ensures t in h'.pods {
      if t != s {
        assert PodOf(h', t) == PodOf(h, t) && Get(h'.calls, t) == Get(h.calls, t);
      }
    }
  }

  lemma StepCells(h: Host, h': Host, s: SandboxId, oc: Option<ContainerId>, x: ContainerId)
    requires Base(h) && Live(h) && StepOk(h, h', s, oc) && x in h'.owner
    ensures CellLaw(x, h'.owner[x], CellOf(h', x), PodOf(h', h'.owner[x]), Get(h'.calls, h'.owner[x]))
  {
    hide CellLaw, PodLaw, CascadeLaw, KeepsPod, LoadLaw, CellOf, PodOf;
    if Some(x) != oc {
      assert Get(h'.owner, x) == Get(h.owner, x) && CellOf(h', x) == CellOf(h, x);
      var t := h.owner[x];
      assert CellLaw(x, t, CellOf(h, x), PodOf(h, t), Get(h.calls, t));
      if t != s {
        assert PodOf(h', t) == PodOf(h, t) && Get(h'.calls, t) == Get(h.calls, t);
      } else {
        assert Of(h, x, s);
        if Get(h'.calls, s) != Get(h.calls, s) || PodOf(h', s) != PodOf(h, s) {
          OtherCell(x, s, CellOf(h, x), PodOf(h, s), PodOf(h', s), Get(h.calls, s), Get(h'.calls, s));
        }
      }
    }
  }

  lemma OtherOwner(h: Host, h': Host, s: SandboxId, oc: Option<ContainerId>, t: SandboxId, c: ContainerId)
    requires Touched(h, h', s, oc) && t != s
    ensures Of(h', c, t) <==> Of(h, c, t)
    ensures Of(h', c, t) && c in h'.diskC ==> c in h.diskC
  {
    if Some(c) != oc {
      assert Get(h'.owner, c) == Get(h.owner, c) && CellOf(h', c) == CellOf(h, c);
    }
  }

  lemma OtherCascade(h: Host, h': Host, s: SandboxId, oc: Option<ContainerId>, t: SandboxId, pc: Pc)
    requires Touched(h, h', s, oc) && t != s && CascadeLaw(h, t, pc)
    ensures CascadeLaw(h', t, pc)
  {
    var subject, left := Subject(pc), Left(pc);
    if subject.Some? {
      OtherOwner(h, h', s, oc, t, subject.value);
    }
    if left.Some? {
      forall c | c in left.value ensures Of(h', c, t) {
        OtherOwner(h, h', s, oc, t, c);
      }
      forall c | c in h'.diskC && Of(h', c, t) ensures c in left.value {
        OtherOwner(h, h', s, oc, t, c);
      }
    }
  }

  lemma StepAllCells(h: Host, h': Host, s: SandboxId, oc: Option<ContainerId>)
    requires Base(h) && Live(h) && StepOk(h, h', s, oc)
    ensures forall x | x in h'.owner ::
              CellLaw(x, h'.owner[x], CellOf(h', x), PodOf(h', h'.owner[x]), Get(h'.calls, h'.owner[x]))
  {
    forall x | x in h'.owner
      ensures CellLaw(x, h'.owner[x], CellOf(h', x), PodOf(h', h'.owner[x]), Get(h'.calls, h'.owner[x]))
    {
      StepCells(h, h', s, oc, x);
    }
  }

  lemma StepAllPods(h: Host, h': Host, s: SandboxId, oc: Option<ContainerId>)
    requires Base(h) && Live(h) && StepOk(h, h', s, oc)
    ensures forall t | t in h'.pods :: PodLaw(t, PodOf(h', t), Get(h'.calls, t))
  {
    forall t | t in h'.pods ensures PodLaw(t, PodOf(h', t), Get(h'.calls, t)) {
      if t != s {
        assert PodLaw(t, PodOf(h, t), Get(h.calls, t));
        assert PodOf(h', t) == PodOf(h, t) && Get(h'.calls, t) == Get(h.calls, t);
      }
    }
  }

  lemma StepAllCascades(h: Host, h': Host, s: SandboxId, oc: Option<ContainerId>)
    requires Base(h) && Live(h) && StepOk(h, h', s, oc)
    ensures forall t | t in h'.calls :: CascadeLaw(h', t, h'.calls[t])
  {
    forall t | t in h'.calls ensures CascadeLaw(h', t, h'.calls[t]) {
      if t != s {
        assert Get(h'.calls, t) == Get(h.calls, t);
        OtherCascade(h, h', s, oc, t, h.calls[t]);
      }
    }
  }

  lemma LiveStored(h: Host)
    requires Base(h) && Live(h)
    ensures DiskInv(h)
  {
    forall t | t in h.diskS ensures h.diskS[t].id == t {
      assert PodLaw(t, PodOf(h, t), Get(h.calls, t));
    }
  }

  lemma StepKeeps(h: Host, h': Host, s: SandboxId, oc: Option<ContainerId>)
    requires Inv(h) && h.phase.Up? && StepOk(h, h', s, oc)
    ensures Inv(h')
  {
    StepBase(h, h', s, oc);
    assert Live(h') by {
      StepAllCells(h, h', s, oc);
      StepAllPods(h, h', s, oc);
      StepAllCascades(h, h', s, oc);
    }
    LiveStored(h');
  }

  // ── What one call step does to its container and its pod ──────────────────

  function NextCell(cell: Cell, pc: Pc, next: Option<Pc>, ch: Choice): Cell {
    Cell(
      if Persists(pc).Some? then Persists(pc) else if pc.RmUnlink? then None else cell.disk,
      if pc.CreateInsert? then Some(pc.snap)
      else if pc.RmDrop? then None
      else if next.Some? && !next.value.CreatePersist? && Persists(next.value).Some? then Persists(next.value)
      else cell.cache,
      if pc.StartReaper? then Some(Waiting(pc.pid)) else cell.reaper,
      if pc.StartSpawn? && ch.ok then cell.launched - {ch.pid} else cell.launched,
      if pc.StartSpawn? && ch.ok then cell.kids + {ch.pid}
      else if pc.StartReap? then cell.kids - {pc.pid}
      else cell.kids)
  }

  function NextPod(pod: Pod, pc: Pc, next: Option<Pc>): Pod {
    Pod(
      if pc.RunPersist? || pc.StopSbPersist? then Some(pc.sb) else if pc.RmSbUnlink? then None else pod.disk,
      if pc.RunInsert? then Some(pc.sb)
      else if next.Some? && next.value.StopSbPersist? then Some(next.value.sb)
      else if next == Some(RmSbUnlink) then None
      else pod.cache)
  }

  // The law carries over to the next control point, for the container the call works on.
  ghost predicate CarriesOver(c: ContainerId, s: SandboxId, cell: Cell, pod: Pod, pc: Pc, ch: Choice) {
    var next := NextPc(cell.cache, pod.cache, s, pc, ch);
    && CellLaw(c, s, NextCell(cell, pc, next, ch), NextPod(pod, pc, next), next)
    && PodLaw(s, NextPod(pod, pc, next), next)
    && NextPod(pod, pc, next) == pod
    && Concerns(next, Some(c))
  }

  ghost predicate Working(c: ContainerId, s: SandboxId, cell: Cell, pod: Pod, pc: Pc, ch: Choice) {
    && CellLaw(c, s, cell, pod, Some(pc)) && PodLaw(s, pod, Some(pc)) && Subject(pc) == Some(c)
    && (pc.StartSpawn? && ch.ok ==> ch.pid > 0)
    && (pc.StartAwait? && ch.poll == Readable ==> pc.pipe.bytes > 0 || !pc.pipe.open)
  }

  lemma CreateCarries(c: ContainerId, s: SandboxId, cell: Cell, pod: Pod, pc: Pc, ch: Choice)
    requires Working(c, s, cell, pod, pc, ch) && InCreate(pc)
    ensures CarriesOver(c, s, cell, pod, pc, ch)
  {
  }

  lemma CheckCarries(c: ContainerId, s: SandboxId, cell: Cell, pod: Pod, pc: Pc, ch: Choice)
    requires Working(c, s, cell, pod, pc, ch) && (pc.StartCheck? || pc.StartIntent?)
    ensures CarriesOver(c, s, cell, pod, pc, ch)
  {
  }

  lemma IntentCarries(c: ContainerId, s: SandboxId, cell: Cell, pod: Pod, pc: Pc, ch: Choice)
    requires Working(c, s, cell, pod, pc, ch) && (pc.StartPersistIntent? || pc.StartSpawn?)
    ensures CarriesOver(c, s, cell, pod, pc, ch)
  {
  }

  lemma WaitCarries(c: ContainerId, s: SandboxId, cell: Cell, pod: Pod, pc: Pc, ch: Choice)
    requires Working(c, s, cell, pod, pc, ch) && (pc.StartAwait? || pc.StartReap?)
    ensures CarriesOver(c, s, cell, pod, pc, ch)
  {
  }

  lemma FailCarries(c: ContainerId, s: SandboxId, cell: Cell, pod: Pod, pc: Pc, ch: Choice)
    requires Working(c, s, cell, pod, pc, ch) && (pc.StartFail? || pc.StartFailPersist?)
    ensures CarriesOver(c, s, cell, pod, pc, ch)
  {
  }

  lemma RunCarries(c: ContainerId, s: SandboxId, cell: Cell, pod: Pod, pc: Pc, ch: Choice)
    requires Working(c, s, cell, pod, pc, ch) && (pc.StartRun? || pc.StartPersistRun? || pc.StartReaper?)
    ensures CarriesOver(c, s, cell, pod, pc, ch)
  {
  }

  // A Running container found by stop has a pid, so the defensive branch is not taken.
  lemma StopCarries(c: ContainerId, s: SandboxId, cell: Cell, pod: Pod, pc: Pc, ch: Choice)
    requires Working(c, s, cell, pod, pc, ch) && InStop(pc)
    ensures CarriesOver(c, s, cell, pod, pc, ch)
  {
  }

  lemma RemoveCarries(c: ContainerId, s: SandboxId, cell: Cell, pod: Pod, pc: Pc, ch: Choice)
    requires Working(c, s, cell, pod, pc, ch) && InRemove(pc)
    ensures CarriesOver(c, s, cell, pod, pc, ch)
  {
  }

  lemma SandboxCarries(s: SandboxId, pod: Pod, pc: Pc, ch: Choice)
    requires PodLaw(s, pod, Some(pc)) && InSandbox(pc)
    ensures var next := NextPc(None, pod.cache, s, pc, ch); PodLaw(s, NextPod(pod, pc, next), next)
  {
  }

  lemma CallCarries(c: ContainerId, s: SandboxId, cell: Cell, pod: Pod, pc: Pc, ch: Choice)
    requires Working(c, s, cell, pod, pc, ch)
    ensures CarriesOver(c, s, cell, pod, pc, ch)
  {
    if InCreate(pc) {
      CreateCarries(c, s, cell, pod, pc, ch);
    } else if InStop(pc) {
      StopCarries(c, s, cell, pod, pc, ch);
    } else if InRemove(pc) {
      RemoveCarries(c, s, cell, pod, pc, ch);
    } else if pc.StartCheck? || pc.StartIntent? {
      CheckCarries(c, s, cell, pod, pc, ch);
    } else if pc.StartPersistIntent? || pc.StartSpawn? {
      IntentCarries(c, s, cell, pod, pc, ch);
    } else if pc.StartRun? || pc.StartPersistRun? || pc.StartReaper? {
      RunCarries(c, s, cell, pod, pc, ch);
    } else if pc.StartAwait? || pc.StartReap? {
      WaitCarries(c, s, cell, pod, pc, ch);
    } else {
      FailCarries(c, s, cell, pod, pc, ch);
    }
  }

  // ── The step on the host is the local step ────────────────────────────────

  // The records a step writes belong to container oc and pod s.
  predicate Writes(pc: Pc, next: Option<Pc>, s: SandboxId, oc: Option<ContainerId>) {
    && (Persists(pc).Some? ==> Some(Persists(pc).value.id) == oc)
    && (next.Some? && Persists(next.value).Some? ==> Some(Persists(next.value).value.id) == oc)
    && (pc.CreateInsert? ==> Some(pc.snap.id) == oc)
    && (pc.RmDrop? || pc.RmUnlink? || pc.StartReaper? || pc.StartSpawn? || pc.StartReap? ==> Some(pc.cid) == oc)
    && (pc.RunPersist? || pc.RunInsert? || pc.StopSbPersist? ==> pc.sb.id == s)
  }

  lemma AdvanceMaps(h: Host, s: SandboxId, ch: Choice, oc: Option<ContainerId>, x: ContainerId)
    requires s in h.calls && CanAdvance(h, s, h.calls[s], ch)
    requires Writes(h.calls[s], NextPc(Cached(h, h.calls[s]), Get(h.cacheS, s), s, h.calls[s], ch), s, oc)
    ensures var h', pc, cell := AdvanceCall(h, s, ch), h.calls[s], CellOf(h, x);
            var next := NextPc(Cached(h, pc), Get(h.cacheS, s), s, pc, ch);
            var cell' := if Some(x) == oc then NextCell(cell, pc, next, ch) else cell;
            && Get(h'.diskC, x) == cell'.disk && Get(h'.cacheC, x) == cell'.cache && Get(h'.reapers, x) == cell'.reaper
  {
  }

  lemma AdvanceKids(h: Host, s: SandboxId, ch: Choice, oc: Option<ContainerId>, x: ContainerId)
    requires s in h.calls && CanAdvance(h, s, h.calls[s], ch)
    requires Writes(h.calls[s], NextPc(Cached(h, h.calls[s]), Get(h.cacheS, s), s, h.calls[s], ch), s, oc)
    requires h.calls[s].StartReap? ==> h.calls[s].pid in Kids(h, h.calls[s].cid)
    ensures var h', pc, cell := AdvanceCall(h, s, ch), h.calls[s], CellOf(h, x);
            var next := NextPc(Cached(h, pc), Get(h.cacheS, s), s, pc, ch);
            Kids(h', x) == (if Some(x) == oc then NextCell(cell, pc, next, ch) else cell).kids
  {
  }

  lemma AdvanceLaunched(h: Host, s: SandboxId, ch: Choice, oc: Option<ContainerId>, x: ContainerId)
    requires s in h.calls && CanAdvance(h, s, h.calls[s], ch)
    requires Writes(h.calls[s], NextPc(Cached(h, h.calls[s]), Get(h.cacheS, s), s, h.calls[s], ch), s, oc)
    ensures var h', pc, cell := AdvanceCall(h, s, ch), h.calls[s], CellOf(h, x);
            var next := NextPc(Cached(h, pc), Get(h.cacheS, s), s, pc, ch);
            Launched(h', x) == (if Some(x) == oc then NextCell(cell, pc, next, ch) else cell).launched
  {
    hide NextPc, NextDiskC, NextDiskS, NextCacheC, NextCacheS, NextProcs;
    var h', pc := AdvanceCall(h, s, ch), h.calls[s];
    if pc.StartSpawn? && ch.ok {
      LaunchedWithout(h.execd + h.silent, Launch(pc.cid, ch.pid), x);
      assert h'.execd + h'.silent == h.execd + h.silent - {Launch(pc.cid, ch.pid)};
    }
  }

  lemma LaunchedWithout(ls: set<Launch>, l: Launch, x: ContainerId)
    ensures (set k | k in ls - {l} && k.cid == x :: k.pid) ==
            (set k | k in ls && k.cid == x :: k.pid) - if x == l.cid then {l.pid} else {}
  {
    forall k | k in ls && k.cid == x && k.pid == l.pid && x == l.cid ensures k == l {
    }
  }

  lemma AdvancePods(h: Host, s: SandboxId, ch: Choice, oc: Option<ContainerId>, t: SandboxId)
    requires s in h.calls && CanAdvance(h, s, h.calls[s], ch)
    requires Writes(h.calls[s], NextPc(Cached(h, h.calls[s]), Get(h.cacheS, s), s, h.calls[s], ch), s, oc)
    ensures var h', pc := AdvanceCall(h, s, ch), h.calls[s];
            var next := NextPc(Cached(h, pc), Get(h.cacheS, s), s, pc, ch);
            && PodOf(h', t) == (if t == s then NextPod(PodOf(h, s), pc, next) else PodOf(h, t))
            && Get(h'.calls, t) == (if t == s then next else Get(h.calls, t))
  {
  }

  // The laws at pod s while it has a call in flight.
  ghost predicate AtAll(h: Host, s: SandboxId) {
    && s in h.calls && s in h.pods
    && PodLaw(s, PodOf(h, s), Get(h.calls, s)) && CascadeLaw(h, s, h.calls[s])
    && forall x | Of(h, x, s) :: CellLaw(x, s, CellOf(h, x), PodOf(h, s), Get(h.calls, s))
  }

  // The container a call step works on.
  function StepSubject(h: Host, s: SandboxId, ch: Choice): Option<ContainerId>
    requires s in h.calls
  {
    var pc := h.calls[s];
    if pc.RmSbLoop? then if pc.todo == [] then None else Some(pc.todo[0])
    else if pc.CreateGate? then
      if s in h.cacheS && h.cacheS[s].state == SandboxState.Ready then Some(ch.newId) else None
    else Subject(pc)
  }

  lemma AdvanceTouched(h: Host, s: SandboxId, ch: Choice, oc: Option<ContainerId>)
    requires s in h.calls && s in h.pods && CanAdvance(h, s, h.calls[s], ch)
    requires Writes(h.calls[s], NextPc(Cached(h, h.calls[s]), Get(h.cacheS, s), s, h.calls[s], ch), s, oc)
    requires h.calls[s].StartReap? ==> h.calls[s].pid in Kids(h, h.calls[s].cid)
    requires oc.Some? ==> Of(AdvanceCall(h, s, ch), oc.value, s) && (oc.value in h.owner ==> h.owner[oc.value] == s)
    ensures Touched(h, AdvanceCall(h, s, ch), s, oc)
    ensures var h', pc := AdvanceCall(h, s, ch), h.calls[s];
            var next := NextPc(Cached(h, pc), Get(h.cacheS, s), s, pc, ch);
            && (oc.Some? ==> CellOf(h', oc.value) == NextCell(CellOf(h, oc.value), pc, next, ch))
            && PodOf(h', s) == NextPod(PodOf(h, s), pc, next) && Get(h'.calls, s) == next
  {
    var h' := AdvanceCall(h, s, ch);
    forall x ensures Some(x) != oc ==> CellOf(h', x) == CellOf(h, x) && Get(h'.owner, x) == Get(h.owner, x) {
      AdvanceMaps(h, s, ch, oc, x);
      AdvanceKids(h, s, ch, oc, x);
      AdvanceLaunched(h, s, ch, oc, x);
    }
    if oc.Some? {
      AdvanceMaps(h, s, ch, oc, oc.value);
      AdvanceKids(h, s, ch, oc, oc.value);
      AdvanceLaunched(h, s, ch, oc, oc.value);
    }
    forall t ensures t != s ==> PodOf(h', t) == PodOf(h, t) && Get(h'.calls, t) == Get(h.calls, t) {
      AdvancePods(h, s, ch, oc, t);
    }
    AdvancePods(h, s, ch, oc, s);
  }

  // A container step keeps the cascade's list, or strikes the container it has removed.
  lemma LeftNext(rec: Option<ContainerRecord>, sb: Option<SandboxRecord>, s: SandboxId, pc: Pc, ch: Choice)
    requires Subject(pc).Some? && !pc.StopDefensive? && !pc.StopPersist?
    requires pc.StopLook? && rec.Some? && rec.value.state == Running ==> rec.value.pid > 0
    ensures var next := NextPc(rec, sb, s, pc, ch);
            next.Some? ==>
              || Left(next.value) == Left(pc)
              || (&& (pc.RmUnlink? || (pc.RmLook? && rec.None?)) && next.value.RmSbLoop?
                  && Left(pc) == Some([pc.cid] + next.value.todo))
  {
  }

  lemma CascadeNext(h: Host, h': Host, s: SandboxId, pc: Pc, next: Pc)
    requires CascadeLaw(h, s, pc)
    requires h'.diskC.Keys <= h.diskC.Keys + (if Persists(pc).Some? then {Persists(pc).value.id} else {})
    requires forall c | c in h.owner :: Of(h', c, h.owner[c])
    requires forall c | c in h'.owner && c !in h.owner :: c !in h'.diskC
    requires Subject(next).Some? ==> Of(h', Subject(next).value, s)
    requires Left(next).Some? ==>
               && Persists(pc).None?
               && (|| Left(next) == Left(pc)
                   || (&& Subject(pc).Some? && Subject(pc).value !in h'.diskC
                       && next.RmSbLoop? && Left(pc) == Some([Subject(pc).value] + next.todo)))
    ensures CascadeLaw(h', s, next)
  {
    var was, left := Left(pc), Left(next);
    if left.Some? {
      forall c | c in left.value ensures Of(h', c, s) {
        assert c in was.value;
      }
      forall c | c in h'.diskC && Of(h', c, s) ensures c in left.value {
        assert c in was.value;
      }
    }
  }

  lemma WorkingWrites(c: ContainerId, s: SandboxId, cell: Cell, pod: Pod, pc: Pc, ch: Choice)
    requires Working(c, s, cell, pod, pc, ch)
    ensures var next := NextPc(cell.cache, pod.cache, s, pc, ch);
            && Writes(pc, next, s, Some(c)) && (next.Some? ==> !next.value.CreatePersist?)
    ensures pc.StartReap? ==> pc.pid in cell.kids
    ensures !pc.StopDefensive? && !pc.StopPersist?
    ensures pc.StopLook? && CachedAs(cell, Running) ==> cell.cache.value.pid > 0
  {
    CallCarries(c, s, cell, pod, pc, ch);
  }

  lemma ContainerCascade(h: Host, h': Host, s: SandboxId, c: ContainerId, ch: Choice)
    requires s in h.calls && Subject(h.calls[s]) == Some(c) && CascadeLaw(h, s, h.calls[s])
    requires Working(c, s, CellOf(h, c), PodOf(h, s), h.calls[s], ch)
    requires h'.owner == h.owner && h'.diskC == NextDiskC(h.diskC, h.calls[s])
    ensures var next := NextPc(Cached(h, h.calls[s]), Get(h.cacheS, s), s, h.calls[s], ch);
            next.Some? ==> CascadeLaw(h', s, next.value)
  {
    var pc := h.calls[s];
    var next := NextPc(Cached(h, pc), Get(h.cacheS, s), s, pc, ch);
    WorkingWrites(c, s, CellOf(h, c), PodOf(h, s), pc, ch);
    CallCarries(c, s, CellOf(h, c), PodOf(h, s), pc, ch);
    if next.Some? {
      LeftNext(Cached(h, pc), Get(h.cacheS, s), s, pc, ch);
      CascadeNext(h, h', s, pc, next.value);
    }
  }

  lemma ContainerStep(h: Host, s: SandboxId, ch: Choice, c: ContainerId)
    requires AtAll(h, s) && Subject(h.calls[s]) == Some(c) && CanAdvance(h, s, h.calls[s], ch)
    ensures StepOk(h, AdvanceCall(h, s, ch), s, Some(c))
  {
    var h', pc := AdvanceCall(h, s, ch), h.calls[s];
    assert Of(h, c, s) && CellLaw(c, s, CellOf(h, c), PodOf(h, s), Get(h.calls, s));
    assert Working(c, s, CellOf(h, c), PodOf(h, s), pc, ch);
    WorkingWrites(c, s, CellOf(h, c), PodOf(h, s), pc, ch);
    AdvanceTouched(h, s, ch, Some(c));
    CallCarries(c, s, CellOf(h, c), PodOf(h, s), pc, ch);
    ContainerCascade(h, h', s, c, ch);
  }

  // ── Sandbox steps and the gate of create ──────────────────────────────────

  lemma SandboxKeepsPod(h: Host, s: SandboxId, next: Option<Pc>, x: ContainerId)
    requires AtAll(h, s) && InSandbox(h.calls[s]) && Of(h, x, s)
    ensures KeepsPod(CellOf(h, x), PodOf(h, s), NextPod(PodOf(h, s), h.calls[s], next))
  {
    assert CellLaw(x, s, CellOf(h, x), PodOf(h, s), Get(h.calls, s));
  }

  // The law of a container that no call works on, once a stop begins on it.
  lemma StopBegins(c: ContainerId, s: SandboxId, cell: Cell, pod: Pod, pc: Pc, next: Pc)
    requires CellLaw(c, s, cell, pod, Some(pc)) && InSandbox(pc) && next.StopLook?
    ensures CellLaw(c, s, cell, pod, Some(next))
  {
  }

  lemma SandboxCascade(h: Host, s: SandboxId, ch: Choice)
    requires AtAll(h, s) && InSandbox(h.calls[s]) && CanAdvance(h, s, h.calls[s], ch) && h.cacheC.Keys <= h.owner.Keys
    requires forall x | x in h.cacheC :: h.cacheC[x].sandbox == h.owner[x]
    ensures var next := SandboxNext(Get(h.cacheS, s), h.calls[s], ch); next.Some? ==> CascadeLaw(h, s, next.value)
  {
    var pc := h.calls[s];
    if pc.RmSbCollect? {
      forall x | x in h.diskC && Of(h, x, s) ensures x in ch.listing {
        assert CellLaw(x, s, CellOf(h, x), PodOf(h, s), Get(h.calls, s));
      }
    } else if pc.RmSbLoop? && pc.todo != [] {
      assert [pc.todo[0]] + pc.todo[1..] == pc.todo;
    }
  }

  lemma SandboxWrites(h: Host, s: SandboxId, ch: Choice, oc: Option<ContainerId>)
    requires s in h.calls && PodLaw(s, PodOf(h, s), Get(h.calls, s)) && InSandbox(h.calls[s])
    requires CanAdvance(h, s, h.calls[s], ch) && oc == StepSubject(h, s, ch)
    ensures var pc := h.calls[s];
            var next := NextPc(Cached(h, pc), Get(h.cacheS, s), s, pc, ch);
            && next == NextPc(None, Get(h.cacheS, s), s, pc, ch) == SandboxNext(Get(h.cacheS, s), pc, ch)
            && Writes(pc, next, s, oc)
            && (oc.Some? ==> pc.RmSbLoop? && oc.value in pc.todo && next.Some? && next.value.StopLook?)
            && Concerns(Some(pc), oc) && Concerns(next, oc)
            && (oc.Some? ==> NextCell(CellOf(h, oc.value), pc, next, ch) == CellOf(h, oc.value))
            && (oc.Some? ==> NextPod(PodOf(h, s), pc, next) == PodOf(h, s))
            && AdvanceCall(h, s, ch).owner == h.owner && AdvanceCall(h, s, ch).diskC == h.diskC
  {
  }

  lemma SandboxStep(h: Host, s: SandboxId, ch: Choice, oc: Option<ContainerId>)
    requires AtAll(h, s) && InSandbox(h.calls[s]) && CanAdvance(h, s, h.calls[s], ch) && oc == StepSubject(h, s, ch)
    requires h.cacheC.Keys <= h.owner.Keys && forall x | x in h.cacheC :: h.cacheC[x].sandbox == h.owner[x]
    ensures StepOk(h, AdvanceCall(h, s, ch), s, oc)
  {
    hide CellLaw, PodLaw, KeepsPod, Touched, AdvanceCall, NextPc;
    hide SandboxNext, NextPod, NextCell, Writes, CanAdvance, StepSubject;
    var h', pc, pod := AdvanceCall(h, s, ch), h.calls[s], PodOf(h, s);
    var next := SandboxNext(pod.cache, pc, ch);
    SandboxWrites(h, s, ch, oc);
    SandboxCarries(s, pod, pc, ch);
    AdvanceTouched(h, s, ch, oc);
    if oc.Some? {
      StopBegins(oc.value, s, CellOf(h, oc.value), pod, pc, next.value);
    }
    forall x | Of(h, x, s) ensures KeepsPod(CellOf(h, x), pod, PodOf(h', s)) {
      SandboxKeepsPod(h, s, next, x);
    }
    if next.Some? {
      SandboxCascade(h, s, ch);
      assert CascadeLaw(h', s, next.value);
    }
  }

  lemma GateStep(h: Host, s: SandboxId, ch: Choice, oc: Option<ContainerId>)
    requires AtAll(h, s) && h.calls[s].CreateGate? && CanAdvance(h, s, h.calls[s], ch) && oc == StepSubject(h, s, ch)
    requires h.diskC.Keys <= h.owner.Keys && h.cacheC.Keys <= h.owner.Keys && h.reapers.Keys <= h.owner.Keys
    ensures StepOk(h, AdvanceCall(h, s, ch), s, oc)
  {
    AdvanceTouched(h, s, ch, oc);
  }

  lemma AdvanceOk(h: Host, s: SandboxId, ch: Choice)
    requires Inv(h) && Enabled(h, Advance(s, ch))
    ensures StepOk(h, AdvanceCall(h, s, ch), s, StepSubject(h, s, ch))
  {
    InvAt(h, s);
    var oc := StepSubject(h, s, ch);
    if InSandbox(h.calls[s]) {
      SandboxStep(h, s, ch, oc);
    } else if h.calls[s].CreateGate? {
      GateStep(h, s, ch, oc);
    } else {
      ContainerStep(h, s, ch, oc.value);
    }
  }

  lemma AdvanceKeeps(h: Host, s: SandboxId, ch: Choice)
    requires Inv(h) && Enabled(h, Advance(s, ch))
    ensures Inv(AdvanceCall(h, s, ch))
  {
    var oc := StepSubject(h, s, ch);
    AdvanceOk(h, s, ch);
    InvUp(h, s);
    hide Inv, StepOk, AdvanceCall, StepSubject;
    StepKeeps(h, AdvanceCall(h, s, ch), s, oc);
  }

  lemma InvUp(h: Host, s: SandboxId)
    requires Inv(h) && s in h.calls
    ensures h.phase.Up?
  {
  }

  lemma InvAt(h: Host, s: SandboxId)
    requires Inv(h) && s in h.calls
    ensures AtAll(h, s) && h.phase.Up?
    ensures forall x | x in h.cacheC :: h.cacheC[x].sandbox == h.owner[x]
  {
    assert PodLaw(s, PodOf(h, s), Get(h.calls, s)) && CascadeLaw(h, s, h.calls[s]);
    forall x | x in h.cacheC ensures h.cacheC[x].sandbox == h.owner[x] {
      assert CellLaw(x, h.owner[x], CellOf(h, x), PodOf(h, h.owner[x]), Get(h.calls, h.owner[x]));
    }
  }

  // ── The other steps ───────────────────────────────────────────────────────

  // The first control point of a call on an existing pod.
  predicate Entry(pc: Pc) {
    || pc.StopSbLock? || pc.CreateGate? || pc.StartCheck?
    || (pc.StopLook? && pc.stopped == StopReturn) || (pc.RmLook? && pc.after == Return)
  }

  lemma EntryLaws(c: ContainerId, s: SandboxId, cell: Cell, pod: Pod, pc: Pc)
    requires Entry(pc) && CellLaw(c, s, cell, pod, None)
    ensures CellLaw(c, s, cell, pod, Some(pc))
  {
  }

  lemma EntryPod(s: SandboxId, pod: Pod, pc: Pc)
    requires Entry(pc) && PodLaw(s, pod, None)
    ensures PodLaw(s, pod, Some(pc)) && Left(pc).None?
  {
  }

  lemma CallViews(h: Host, s: SandboxId, pc: Pc)
    ensures var h' := SetCall(h, s, Some(pc));
            && h'.owner == h.owner && h'.pods == h.pods && h'.phase == h.phase && h'.calls == h.calls[s := pc]
            && (forall c :: CellOf(h', c) == CellOf(h, c)) && (forall t :: PodOf(h', t) == PodOf(h, t))
  {
    var h' := SetCall(h, s, Some(pc));
    forall c ensures CellOf(h', c) == CellOf(h, c) {
      assert Kids(h', c) == Kids(h, c) && Launched(h', c) == Launched(h, c);
    }
  }

  lemma CallTouches(h: Host, s: SandboxId, pc: Pc, oc: Option<ContainerId>)
    requires s in h.pods && (oc.Some? ==> Of(h, oc.value, s))
    ensures Touched(h, SetCall(h, s, Some(pc)), s, oc)
  {
    hide CellOf, PodOf;
    CallViews(h, s, pc);
  }

  lemma CallCascade(h: Host, s: SandboxId, pc: Pc)
    requires Left(pc).None? && (Subject(pc).Some? ==> Of(h, Subject(pc).value, s))
    ensures CascadeLaw(SetCall(h, s, Some(pc)), s, pc)
  {
  }

  lemma BeginStep(h: Host, s: SandboxId, pc: Pc, oc: Option<ContainerId>)
    requires s in h.pods && s !in h.calls && oc == Subject(pc) && Left(pc).None? && PodLaw(s, PodOf(h, s), Some(pc))
    requires oc.Some? ==> Of(h, oc.value, s) && CellLaw(oc.value, s, CellOf(h, oc.value), PodOf(h, s), Some(pc))
    ensures StepOk(h, SetCall(h, s, Some(pc)), s, oc)
  {
    hide CellLaw, PodLaw, CascadeLaw, Touched, CellOf, PodOf;
    CallViews(h, s, pc);
    CallTouches(h, s, pc, oc);
    CallCascade(h, s, pc);
  }

  lemma BeginKeeps(h: Host, s: SandboxId, pc: Pc)
    requires Inv(h) && CanBegin(h, s) && Entry(pc) && (Subject(pc).Some? ==> Of(h, Subject(pc).value, s))
    ensures Inv(SetCall(h, s, Some(pc)))
  {
    var oc := Subject(pc);
    assert PodLaw(s, PodOf(h, s), None);
    EntryPod(s, PodOf(h, s), pc);
    if oc.Some? {
      assert CellLaw(oc.value, s, CellOf(h, oc.value), PodOf(h, s), None);
      EntryLaws(oc.value, s, CellOf(h, oc.value), PodOf(h, s), pc);
    }
    BeginStep(h, s, pc, oc);
    StepKeeps(h, SetCall(h, s, Some(pc)), s, oc);
  }

  lemma BeginRunStep(h: Host, sb: SandboxRecord)
    requires Enabled(h, BeginRunSandbox(sb)) && sb.id !in h.diskS && sb.id !in h.cacheS
    requires forall c | c in h.owner :: h.owner[c] in h.pods
    ensures StepOk(h, Apply(h, BeginRunSandbox(sb)), sb.id, None)
  {
    var h' := Apply(h, BeginRunSandbox(sb));
    assert forall c :: CellOf(h', c) == CellOf(h, c);
    assert h'.calls[sb.id] == RunPersist(sb);
  }

  lemma BeginRunKeeps(h: Host, sb: SandboxRecord)
    requires Inv(h) && Enabled(h, BeginRunSandbox(sb))
    ensures Inv(Apply(h, BeginRunSandbox(sb)))
  {
    BeginRunStep(h, sb);
    StepKeeps(h, Apply(h, BeginRunSandbox(sb)), sb.id, None);
  }

  // The engine's end of the readiness pipe moves; a pipe closed empty enters `launched`.
  lemma PipeMoves(c: ContainerId, s: SandboxId, cell: Cell, pod: Pod, pc: Pc, pipe: Pipe, launched: set<nat>)
    requires CellLaw(c, s, cell, pod, Some(pc)) && PodLaw(s, pod, Some(pc)) && pc.StartAwait? && pc.cid == c
    requires cell.launched <= launched && (pipe.bytes == 0 && !pipe.open ==> pc.pid in launched)
    ensures CellLaw(c, s, cell.(launched := launched), pod, Some(pc.(pipe := pipe)))
    ensures PodLaw(s, pod, Some(pc.(pipe := pipe))) && Left(pc.(pipe := pipe)).None?
  {
  }

  lemma EngineViews(h: Host, s: SandboxId, step: Step)
    requires Enabled(h, step) && (step == EngineWrites(s) || step == EngineExecs(s) || step == EngineDies(s))
    ensures var h', pc := Apply(h, step), h.calls[s];
            && h'.calls[s].StartAwait? && h'.calls[s] == pc.(pipe := h'.calls[s].pipe)
            && h' == h.(calls := h.calls[s := h'.calls[s]], execd := h'.execd, silent := h'.silent)
            && CellOf(h', pc.cid) == CellOf(h, pc.cid).(launched := Launched(h', pc.cid))
            && Launched(h, pc.cid) <= Launched(h', pc.cid)
            && (h'.calls[s].pipe.bytes == 0 && !h'.calls[s].pipe.open ==> pc.pid in Launched(h', pc.cid))
            && forall x | x != pc.cid :: CellOf(h', x) == CellOf(h, x)
  {
    var h', pc := Apply(h, step), h.calls[s];
    assert h'.calls[s].pipe.bytes == 0 && !h'.calls[s].pipe.open ==> Launch(pc.cid, pc.pid) in h'.execd + h'.silent;
    forall x | x != pc.cid ensures CellOf(h', x) == CellOf(h, x) {
      assert Launched(h', x) == Launched(h, x);
    }
  }

  lemma EngineStep(h: Host, s: SandboxId, step: Step)
    requires AtAll(h, s) && Enabled(h, step)
    requires step == EngineWrites(s) || step == EngineExecs(s) || step == EngineDies(s)
    ensures StepOk(h, Apply(h, step), s, Some(h.calls[s].cid))
  {
    var h', pc := Apply(h, step), h.calls[s];
    EngineViews(h, s, step);
    PipeMoves(pc.cid, s, CellOf(h, pc.cid), PodOf(h, s), pc, h'.calls[s].pipe, Launched(h', pc.cid));
  }

  lemma EngineKeeps(h: Host, s: SandboxId, step: Step)
    requires Inv(h) && Enabled(h, step) && (step == EngineWrites(s) || step == EngineExecs(s) || step == EngineDies(s))
    ensures Inv(Apply(h, step))
  {
    InvAt(h, s);
    EngineStep(h, s, step);
    StepKeeps(h, Apply(h, step), s, Some(h.calls[s].cid));
  }

  // A step that leaves every container's view, every sandbox and every call as it was.
  lemma SameViewsKeep(h: Host, h': Host)
    requires Inv(h) && h' == h.(procs := h'.procs) && forall c | c in h.owner :: Kids(h', c) == Kids(h, c)
    ensures Inv(h')
  {
    assert Base(h');
    forall c | c in h'.owner ensures CellOf(h', c) == CellOf(h, c) {
    }
    if h.phase.Up? {
      SameViewsLive(h, h');
    }
  }

  lemma SameViewsLive(h: Host, h': Host)
    requires Live(h) && h' == h.(procs := h'.procs) && forall c | c in h.owner :: CellOf(h', c) == CellOf(h, c)
    ensures Live(h')
  {
    forall c | c in h'.owner
      ensures CellLaw(c, h'.owner[c], CellOf(h', c), PodOf(h', h'.owner[c]), Get(h'.calls, h'.owner[c]))
    {
      assert PodOf(h', h'.owner[c]) == PodOf(h, h.owner[c]);
    }
    forall s | s in h'.pods ensures PodLaw(s, PodOf(h', s), Get(h'.calls, s)) {
      assert PodOf(h', s) == PodOf(h, s);
    }
    forall s | s in h'.calls ensures CascadeLaw(h', s, h'.calls[s]) {
      assert CascadeLaw(h, s, h.calls[s]);
    }
  }

  lemma ProcessViews(h: Host, step: Step)
    requires Enabled(h, step) && (step.ProcExits? || step.InitReaps? || step.ForeignSpawn?)
    ensures Apply(h, step) == h.(procs := Apply(h, step).procs) && forall c :: Kids(Apply(h, step), c) == Kids(h, c)
  {
  }

  lemma ProcessKeeps(h: Host, step: Step)
    requires Inv(h) && Enabled(h, step) && (step.ProcExits? || step.InitReaps? || step.ForeignSpawn?)
    ensures Inv(Apply(h, step))
  {
    ProcessViews(h, step);
    SameViewsKeep(h, Apply(h, step));
  }

  // The reaper of c changes only c's view, to one the law admits.
  lemma WakeCell(c: ContainerId, s: SandboxId, cell: Cell, pod: Pod, pc: Option<Pc>, status: ExitStatus, at: int,
                 kids: set<nat>)
    requires CellLaw(c, s, cell, pod, pc) && cell.reaper.Some?
    ensures CellLaw(c, s, cell.(reaper := Some(Holding(status, at)), kids := kids), pod, pc)
  {
  }

  lemma RecordCell(c: ContainerId, s: SandboxId, cell: Cell, pod: Pod, pc: Option<Pc>, rec: ContainerRecord)
    requires CellLaw(c, s, cell, pod, pc) && cell.reaper.Some?
    ensures CellLaw(c, s, cell.(reaper := None), pod, pc)
    ensures CachedAs(cell, Running) && rec == WithExit(cell.cache.value, rec.exitCode, rec.reason, rec.finishedAt) ==>
              CellLaw(c, s, cell.(reaper := None, cache := Some(rec), disk := Some(rec)), pod, pc)
  {
  }

  lemma WakeViews(h: Host, c: ContainerId, waitOk: bool, now: int)
    requires Enabled(h, ReaperWakes(c, waitOk, now)) && h.reapers[c].pid in Kids(h, c)
    ensures var h' := Apply(h, ReaperWakes(c, waitOk, now));
            && CellOf(h', c) == CellOf(h, c).(reaper := Some(h'.reapers[c]), kids := Kids(h', c))
            && h'.reapers[c].Holding?
            && forall x | x != c :: CellOf(h', x) == CellOf(h, x)
  {
  }

  lemma SkipViews(h: Host, c: ContainerId)
    ensures var h' := h.(reapers := h.reapers - {c});
            && CellOf(h', c) == CellOf(h, c).(reaper := None)
            && forall x | x != c :: CellOf(h', x) == CellOf(h, x)
  {
  }

  lemma WriteViews(h: Host, c: ContainerId, rec: ContainerRecord)
    ensures var h' := h.(reapers := h.reapers - {c}, cacheC := h.cacheC[c := rec], diskC := h.diskC[c := rec]);
            && CellOf(h', c) == CellOf(h, c).(reaper := None, cache := Some(rec), disk := Some(rec))
            && forall x | x != c :: CellOf(h', x) == CellOf(h, x)
  {
  }

  // A step that changes nothing but the view of one container, all calls unchanged.
  lemma CellStep(h: Host, h': Host, s: SandboxId, c: ContainerId)
    requires Of(h, c, s) && s in h.pods
    requires h' == h.(diskC := h'.diskC, cacheC := h'.cacheC, reapers := h'.reapers, procs := h'.procs)
    requires h'.diskC.Keys <= h.diskC.Keys && forall x | x != c :: CellOf(h', x) == CellOf(h, x)
    requires CellLaw(c, s, CellOf(h', c), PodOf(h, s), Get(h.calls, s))
    requires PodLaw(s, PodOf(h, s), Get(h.calls, s)) && (s in h.calls ==> CascadeLaw(h, s, h.calls[s]))
    ensures StepOk(h, h', s, Some(c))
  {
    assert PodOf(h', s) == PodOf(h, s);
    if s in h.calls {
      CascadeSame(h, h', s, h.calls[s]);
    }
  }

  lemma CascadeSame(h: Host, h': Host, s: SandboxId, pc: Pc)
    requires CascadeLaw(h, s, pc) && h'.owner == h.owner && h'.diskC.Keys <= h.diskC.Keys
    ensures CascadeLaw(h', s, pc)
  {
  }

  lemma WaitsForKid(c: ContainerId, s: SandboxId, cell: Cell, pod: Pod, pc: Option<Pc>)
    requires CellLaw(c, s, cell, pod, pc) && cell.reaper.Some? && cell.reaper.value.Waiting?
    ensures cell.reaper.value.pid in cell.kids
  {
  }

  lemma WakeOk(h: Host, c: ContainerId, s: SandboxId, waitOk: bool, now: int)
    requires Enabled(h, ReaperWakes(c, waitOk, now)) && Of(h, c, s) && s in h.pods
    requires CellLaw(c, s, CellOf(h, c), PodOf(h, s), Get(h.calls, s))
    requires PodLaw(s, PodOf(h, s), Get(h.calls, s)) && (s in h.calls ==> CascadeLaw(h, s, h.calls[s]))
    ensures StepOk(h, Apply(h, ReaperWakes(c, waitOk, now)), s, Some(c))
  {
    hide CellLaw, PodLaw, CascadeLaw;
    var h' := Apply(h, ReaperWakes(c, waitOk, now));
    WaitsForKid(c, s, CellOf(h, c), PodOf(h, s), Get(h.calls, s));
    WakeViews(h, c, waitOk, now);
    WakeCell(c, s, CellOf(h, c), PodOf(h, s), Get(h.calls, s), h'.reapers[c].status, h'.reapers[c].at, Kids(h', c));
    CellStep(h, h', s, c);
  }

  lemma WakeKeeps(h: Host, c: ContainerId, waitOk: bool, now: int)
    requires Inv(h) && Enabled(h, ReaperWakes(c, waitOk, now))
    ensures Inv(Apply(h, ReaperWakes(c, waitOk, now)))
  {
    var s := ReaperPod(h, c);
    hide Inv, CellLaw, PodLaw, CascadeLaw, StepOk, Apply;
    WakeOk(h, c, s, waitOk, now);
    StepKeeps(h, Apply(h, ReaperWakes(c, waitOk, now)), s, Some(c));
  }

  // What the invariant says where a reaper is at work.
  lemma ReaperPod(h: Host, c: ContainerId) returns (s: SandboxId)
    requires Inv(h) && c in h.reapers
    ensures h.phase.Up? && Of(h, c, s) && s in h.pods && CellLaw(c, s, CellOf(h, c), PodOf(h, s), Get(h.calls, s))
    ensures PodLaw(s, PodOf(h, s), Get(h.calls, s)) && (s in h.calls ==> CascadeLaw(h, s, h.calls[s]))
  {
    hide CellLaw, PodLaw, CascadeLaw, DiskLaw;
    s := h.owner[c];
  }

  lemma RunningIsStored(c: ContainerId, s: SandboxId, cell: Cell, pod: Pod, pc: Option<Pc>)
    requires CellLaw(c, s, cell, pod, pc) && CachedAs(cell, Running)
    ensures cell.disk.Some?
  {
  }

  lemma RecordOk(h: Host, c: ContainerId, s: SandboxId)
    requires Of(h, c, s) && s in h.pods && c in h.reapers && h.reapers[c].Holding?
    requires CellLaw(c, s, CellOf(h, c), PodOf(h, s), Get(h.calls, s))
    requires PodLaw(s, PodOf(h, s), Get(h.calls, s)) && (s in h.calls ==> CascadeLaw(h, s, h.calls[s]))
    ensures StepOk(h, RecordExit(h, c), s, Some(c))
  {
    hide CellLaw, PodLaw, CascadeLaw;
    var cell, r := CellOf(h, c), h.reapers[c];
    if c in h.cacheC && h.cacheC[c].state == Running {
      var rec := WithExit(h.cacheC[c], r.status.code, r.status.reason, r.at);
      RunningIsStored(c, s, cell, PodOf(h, s), Get(h.calls, s));
      WriteViews(h, c, rec);
      RecordCell(c, s, cell, PodOf(h, s), Get(h.calls, s), rec);
    } else {
      SkipViews(h, c);
      RecordCell(c, s, cell, PodOf(h, s), Get(h.calls, s), NewContainer(c, s, "", 0));
    }
    CellStep(h, RecordExit(h, c), s, c);
  }

  lemma RecordKeeps(h: Host, c: ContainerId)
    requires Inv(h) && Enabled(h, ReaperRecords(c))
    ensures Inv(RecordExit(h, c))
  {
    var s := ReaperPod(h, c);
    hide Inv, CellLaw, PodLaw, CascadeLaw, StepOk, RecordExit;
    RecordOk(h, c, s);
    StepKeeps(h, RecordExit(h, c), s, Some(c));
  }

  lemma SameDiskKeeps(h: Host, h': Host)
    requires DiskInv(h) && h'.diskC == h.diskC && h'.diskS == h.diskS && h'.owner == h.owner
    requires h'.execd == h.execd && h'.silent == h.silent
    ensures DiskInv(h')
  {
    forall c | c in h'.owner ensures DiskLaw(c, h'.owner[c], CellOf(h', c), PodOf(h', h'.owner[c])) {
      assert DiskLaw(c, h.owner[c], CellOf(h, c), PodOf(h, h.owner[c]));
    }
  }

  lemma CrashKeeps(h: Host)
    requires Inv(h)
    ensures Inv(CrashHost(h))
  {
    SameDiskKeeps(h, CrashHost(h));
  }

  lemma BootKeeps(h: Host)
    requires Inv(h) && h.phase.Down?
    ensures Inv(Apply(h, Boot))
  {
    SameDiskKeeps(h, Apply(h, Boot));
  }

  lemma StoredUnderId(h: Host, c: ContainerId)
    requires DiskInv(h) && c in h.diskC && c in h.owner
    ensures h.diskC[c].id == c
  {
    assert DiskLaw(c, h.owner[c], CellOf(h, c), PodOf(h, h.owner[c]));
  }

  lemma LoadContainerKeeps(h: Host, c: ContainerId, now: int)
    requires Inv(h) && Enabled(h, LoadContainer(c, now))
    ensures Inv(Apply(h, LoadContainer(c, now)))
  {
    hide LoadLaw, CellLaw, PodLaw, DiskInv, Live;
    StoredUnderId(h, c);
    LoadLawKept(h, c, now);
    LoadDiskKept(h, c, now);
  }

  lemma LoadDiskKept(h: Host, c: ContainerId, now: int)
    requires DiskInv(h) && h.diskC.Keys <= h.owner.Keys && Enabled(h, LoadContainer(c, now)) && h.diskC[c].id == c
    ensures DiskInv(Apply(h, LoadContainer(c, now)))
  {
    var h' := Apply(h, LoadContainer(c, now));
    forall x | x in h'.owner ensures DiskLaw(x, h'.owner[x], CellOf(h', x), PodOf(h', h'.owner[x])) {
      assert DiskLaw(x, h.owner[x], CellOf(h, x), PodOf(h, h.owner[x]));
      LoadViews(h, c, now, x);
    }
  }

  lemma LoadViews(h: Host, c: ContainerId, now: int, x: ContainerId)
    requires Enabled(h, LoadContainer(c, now)) && h.diskC[c].id == c
    ensures var h', rec := Apply(h, LoadContainer(c, now)), Recovered(h.diskC[c], h.diskC[c].pid in h.procs, now);
            && CellOf(h', x).disk == (if x == c then Some(rec) else CellOf(h, x).disk)
            && CellOf(h', x).launched == CellOf(h, x).launched
            && forall s :: PodOf(h', s) == PodOf(h, s)
  {
  }

  lemma LoadLawStep(h: Host, h': Host, c: ContainerId, rec: ContainerRecord)
    requires h.phase.Loading? && LoadLaw(h) && c in h.phase.todo && (rec.state == Running ==> rec.pid > 0)
    requires h'.diskC == h.diskC[c := rec] && h'.cacheC == h.cacheC[c := rec] && h'.cacheS == h.cacheS
    requires h'.phase == Loading(h.phase.todo - {c})
    ensures LoadLaw(h')
  {
  }

  lemma RecoveredHasPid(rec: ContainerRecord, alive: bool, now: int)
    ensures var r := Recovered(rec, alive, now); r.id == rec.id && (r.state == Running ==> r.pid > 0)
  {
  }

  lemma LoadLawKept(h: Host, c: ContainerId, now: int)
    requires Enabled(h, LoadContainer(c, now)) && LoadLaw(h) && h.diskC[c].id == c
    ensures LoadLaw(Apply(h, LoadContainer(c, now)))
  {
    hide LoadLaw, Recovered;
    var rec := Recovered(h.diskC[c], h.diskC[c].pid in h.procs, now);
    RecoveredHasPid(h.diskC[c], h.diskC[c].pid in h.procs, now);
    LoadLawStep(h, Apply(h, LoadContainer(c, now)), c, rec);
  }

  lemma LoadedContainer(h: Host, x: ContainerId)
    requires Inv(h) && Enabled(h, LoadSandboxes) && x in h.owner
    ensures var h' := Apply(h, LoadSandboxes);
            && CellLaw(x, h.owner[x], CellOf(h', x), PodOf(h', h.owner[x]), None)
            && DiskLaw(x, h.owner[x], CellOf(h', x), PodOf(h', h.owner[x]))
  {
    hide CellLaw, DiskLaw, PodLaw;
    var h' := Apply(h, LoadSandboxes);
    assert DiskLaw(x, h.owner[x], CellOf(h, x), PodOf(h, h.owner[x]));
    assert Launched(h', x) == Launched(h, x);
    LoadedCell(x, h.owner[x], CellOf(h, x), PodOf(h, h.owner[x]), CellOf(h', x), PodOf(h', h.owner[x]));
  }

  lemma LoadSandboxesKeeps(h: Host)
    requires Inv(h) && Enabled(h, LoadSandboxes)
    ensures Inv(Apply(h, LoadSandboxes))
  {
    hide CellLaw, DiskLaw, PodLaw, CellOf;
    var h' := Apply(h, LoadSandboxes);
    forall x | x in h'.owner
      ensures CellLaw(x, h'.owner[x], CellOf(h', x), PodOf(h', h'.owner[x]), None)
      ensures DiskLaw(x, h'.owner[x], CellOf(h', x), PodOf(h', h'.owner[x]))
    {
      LoadedContainer(h, x);
    }
    forall s | s in h'.pods ensures PodLaw(s, PodOf(h', s), None) {
      LoadedPod(s, PodOf(h', s));
    }
  }

  lemma LoadedCell(c: ContainerId, s: SandboxId, was: Cell, pod: Pod, cell: Cell, pod': Pod)
    requires DiskLaw(c, s, was, pod) && cell == was.(kids := cell.kids) && pod'.disk == pod.disk
    requires cell.cache == cell.disk && cell.reaper.None? && (CachedAs(cell, Running) ==> cell.cache.value.pid > 0)
    ensures CellLaw(c, s, cell, pod', None) && DiskLaw(c, s, cell, pod')
  {
  }

  lemma LoadedPod(s: SandboxId, pod: Pod)
    requires pod.cache == pod.disk && (pod.disk.Some? ==> pod.disk.value.id == s)
    ensures PodLaw(s, pod, None)
  {
  }

  lemma CallBeginKeeps(h: Host, step: Step)
    requires Inv(h) && Enabled(h, step) && CallOf(h, step).Some? && !step.Advance?
    ensures Inv(Apply(h, step))
  {
    hide Inv, AdvanceCall, RecordExit, CrashHost, Recovered;
    if step.BeginRunSandbox? { BeginRunKeeps(h, step.sb); }
    else if step.BeginStopSandbox? { BeginKeeps(h, step.s, StopSbLock(false)); }
    else if step.BeginRemoveSandbox? { BeginKeeps(h, step.s, StopSbLock(true)); }
    else if step.BeginCreate? { BeginKeeps(h, step.s, CreateGate(step.config)); }
    else if step.BeginStart? { BeginKeeps(h, h.owner[step.c], StartCheck(step.c)); }
    else if step.BeginStop? { BeginKeeps(h, h.owner[step.c], StopLook(step.c, step.grace, StopReturn)); }
    else { BeginKeeps(h, h.owner[step.c], RmLook(step.c, Return)); }
  }

  lemma Keeps(h: Host, step: Step)
    requires Inv(h) && Enabled(h, step)
    ensures Inv(Apply(h, step))
  {
    hide Inv, AdvanceCall, RecordExit, CrashHost, Recovered;
    if step.Advance? { AdvanceKeeps(h, step.s, step.ch); }
    else if CallOf(h, step).Some? { CallBeginKeeps(h, step); }
    else if step.EngineWrites? || step.EngineExecs? || step.EngineDies? { EngineKeeps(h, step.s, step); }
    else if step.ProcExits? || step.InitReaps? || step.ForeignSpawn? { ProcessKeeps(h, step); }
    else if step.ReaperWakes? { WakeKeeps(h, step.c, step.waitOk, step.now); }
    else if step.ReaperRecords? { RecordKeeps(h, step.c); }
    else if step.Crash? { CrashKeeps(h); }
    else if step.Boot? { BootKeeps(h); }
    else if step.LoadContainer? { LoadContainerKeeps(h, step.c, step.now); }
    else { LoadSandboxesKeeps(h); }
  }
}
