/**
 The driver's run-time protocol as one interleaved state machine.  A step is one section of
 code that runs without interference: a lock-protected section, a single atomic operation,
 or one decision of the environment (scheduler, interrupt, allocation outcome).

 Nothing here assumes the code is correct: using a freed domain, job or buffer, an underflow
 warning, a short unmap and the like are steps that record a fault.  The two accesses to
 memory that may be gone which the driver really makes, the task array after its submitter
 gave up and timeout_count after the scheduler's restart, are recorded as stale.
 */
module Machine {
  import opened Options
  import R = Refs
  import P = Power
  import A = AddressSpace

  const MAX_DOMAINS: nat := 16 // ROCKET_MAX_IOMMU_DOMAINS
  const PATIENCE: nat := 3 // rocket_job_timedout gives up when timeout_count passes this

  // AttachOnce is the driver; AttachPerJob is the scheme it replaces, which detaches when a
  // job completes and attaches for every job.
  datatype Policy = AttachOnce | AttachPerJob

  // ---- files, domains, buffers ----

  // rocket_postclose: rocket_job_close detaches core by core, then
  // rocket_iommu_domains_close clears slot by slot.
  datatype FilePhase = Open | Detaching(core: nat) | Draining(slot: nat) | Closed

  // Every counted `struct rocket_iommu_domain *` variable of the driver.
  datatype DomHolder =
    | Slot(f: nat, i: nat)   // rocket_priv->domains[i] of file f
    | Cand(t: nat)           // thread t's local `candidate` in rocket_iommu_domain_get
    | BoDom(b: nat)          // bo->domain
    | JobDom(j: nat)         // job->domain

  // Every counted `struct rocket_job *`.
  datatype JobHolder = Submitter(t: nat) | Sched(j: nat)

  // Every counted gem-object reference.
  datatype BoHolder = Maker(t: nat) | Handle(b: nat) | Task(t: nat)

  // Domains live at addresses that are reused after a free; gen tells incarnations apart.
  datatype Dom = Dom(file: nat, idx: nat, gen: nat, space: A.Space)

  datatype BoState = Fresh | HasDomain | HasNode | Mapped | Freed

  datatype Bo = Bo(file: nat, idx: nat, maker: nat, size: nat, start: nat, st: BoState, published: bool)

  // ---- jobs and ioctl threads ----

  // drm_sched_job: raw, initialised, cleaned up.
  datatype Base = Raw | Ready | Clean

  datatype JobState = Init | Queued | Active | Finished

  // How a job left its scheduler: rocket_job_run returned no fence for it, drm_sched_start
  // cancelled it, its fence was failed by a refused attach, or its fence was signalled by an
  // interrupt.  late says that an interrupt had signalled the fence of a job skipped or
  // cancelled: it completed while its timeout was being handled.
  datatype Exit = Inside | Skipped(late: bool) | Cancelled(late: bool) | Refusal | Completion

  // fence is done_fence's sequence number, 0 for NULL; abandoned is the ENODEV answer of
  // rocket_job_timedout.
  datatype Job = Job(file: nat, idx: nat, core: nat, tasks: nat, next: nat, timeouts: nat, abandoned: bool,
                     st: JobState, base: Base, fence: nat, exit: Exit, submitter: nat)

  datatype Pc =
      // rocket_iommu_domain_get
    | Lookup | Create | Install | Discard
      // rkopnu_ioctl_mem_create
    | Pages | Insert | MapIova | MakeHandle | Finish
    | UndoMap | UndoInsert | UndoDomain | UndoAlloc
      // rkopnu_ioctl_submit
    | Vmap | Alloc | InitJob | Push | Wait | Cleanup | PutJob | Vunmap | PutTask
    | Done

  // One ioctl call.  bo is the buffer being created or the task buffer of a submit.
  datatype Thread = Thread(file: nat, submit: bool, idx: nat, bo: nat, job: Option<nat>, pc: Pc,
                           core: nat, tasks: nat, number: nat, counter: nat, success: bool)

  // ---- cores ----

  // Who holds a core's job_lock between two steps.
  datatype Lock = Unlocked | IrqSignalled | IrqReleased | ResetEntered | ResetDetached

  // How far the scheduler worker is in rocket_job_run.
  datatype Run = Idle | Fenced(job: nat) | Powered(job: nat) | Refused(job: nat) | Unpowered(job: nat)

  // How far rocket_job_timedout is.
  datatype Reset = Quiet | Pending(job: nat) | Stopped(job: nat) | Cleared(job: nat) | Resumable(job: nat)
    | Restarted(job: nat)

  // slot is the job occupying the core's single scheduler credit; signalled holds the
  // sequence numbers of this core's signalled done fences, failed those with an error set.
  datatype Core = Core(flight: Option<nat>, lock: Lock, run: Run, reset: Reset, resetPending: bool,
                       slot: Option<nat>, seqno: nat, signalled: set<nat>, failed: set<nat>)

  // attached is core->attached_domain, an uncounted address; hw is the incarnation whose
  // page table the core's IOMMU group really uses.
  datatype Mmu = Mmu(attached: Option<nat>, hw: Option<nat>)

  // One write of OPERATION_ENABLE, with the page table in use at that moment.
  datatype Launch = Launch(core: nat, job: nat, table: Option<nat>)

  // One successful return of rocket_iommu_domain_get, to its calling thread.
  datatype Grant = Grant(thread: nat, file: nat, idx: nat, gen: nat)

  datatype Fault = UseAfterFree | PowerUnderflow | PowerLeak | FreedWhileAttached | UnmapShort
    | AllocatorNotEmpty | DoubleSignal | BaseMisuse

  // Accesses the driver does make to memory that nothing keeps valid; they are recorded apart
  // from the faults, and characterised exactly, because runs with them exist.
  datatype Stale = TaskArray(job: nat) | TimeoutCount(job: nat)

  datatype State = State(
    policy: Policy, lo: nat, hi: nat,
    files: seq<FilePhase>, threads: seq<Thread>, jobs: seq<Job>, bos: seq<Bo>,
    domRefs: R.Refs<DomHolder, nat>, doms: map<nat, Dom>, gen: nat,
    jobRefs: R.Refs<JobHolder, nat>, boRefs: R.Refs<BoHolder, nat>,
    maps: set<nat>, // threads whose vmap of the task buffer is in place
    cores: seq<Core>, mmus: seq<Mmu>, pm: P.Unit,
    launches: seq<Launch>, grants: seq<Grant>, faults: set<Fault>, stale: set<Stale>)

  // Index sanity, so that the steps below can be written as plain lookups.
  ghost predicate WellTyped(s: State) {
    && 0 < |s.cores| == |s.mmus| == |s.pm.usage|
    && s.domRefs.kref.Keys == s.doms.Keys
    && (forall t | 0 <= t < |s.threads| :: ThreadTyped(s, s.threads[t]))
    && (forall j | 0 <= j < |s.jobs| :: JobTyped(s, s.jobs[j]))
    && (forall b | 0 <= b < |s.bos| :: s.bos[b].file < |s.files| && s.bos[b].idx < MAX_DOMAINS)
    && (forall c | 0 <= c < |s.cores| :: CoreTyped(|s.jobs|, s.cores[c]))
  }

  ghost predicate ThreadTyped(s: State, th: Thread) {
    && th.file < |s.files| && th.idx < MAX_DOMAINS && th.bo < |s.bos| && th.core < |s.cores|
    && (th.job.Some? ==> th.job.value < |s.jobs|)
    && (th.submit && th.pc !in {Vmap, Alloc, Vunmap, PutTask, Done} ==> th.job.Some?)
  }

  ghost predicate JobTyped(s: State, j: Job) {
    j.file < |s.files| && j.idx < MAX_DOMAINS && j.core < |s.cores| && j.submitter < |s.threads|
  }

  ghost predicate CoreTyped(jobs: nat, c: Core) {
    && (c.flight.Some? ==> c.flight.value < jobs)
    && (c.slot.Some? ==> c.slot.value < jobs)
    && (!c.run.Idle? ==> c.run.job < jobs)
    && (!c.reset.Quiet? ==> c.reset.job < jobs)
  }

  ghost predicate Initial(s: State) {
    && 0 < |s.cores| == |s.mmus| == |s.pm.usage|
    && s.hi % A.PAGE == 0
    && s.files == [] && s.threads == [] && s.jobs == [] && s.bos == []
    && s.domRefs == R.Refs(map[], map[]) && s.doms == map[] && s.gen == 0
    && s.jobRefs == R.Refs(map[], map[]) && s.boRefs == R.Refs(map[], map[]) && s.maps == {}
    && (forall c | 0 <= c < |s.cores| ::
          s.cores[c] == Core(None, Unlocked, Idle, Quiet, false, None, 0, {}, {}) && s.mmus[c] == Mmu(None, None))
    && s.pm.refs == 0 && P.Held(s.pm)
    && s.launches == [] && s.grants == [] && s.faults == {} && s.stale == {}
  }

  // Out-of-range domain ids fall back to 0; the submit ABI's u32 goes through an s32 cast,
  // which lands in the same two ranges.
  function Norm(id: int): (r: nat)
    ensures r < MAX_DOMAINS
    ensures r == if 0 <= id < 16 then id else 0
  {
    if id < 0 || id >= MAX_DOMAINS then 0 else id
  }

  // ---- building blocks ----

  function When(cond: bool, f: Fault): set<Fault> {
    if cond then {f} else {}
  }

  function Raise(s: State, cond: bool, f: Fault): State {
    s.(faults := s.faults + When(cond, f))
  }

  function SetThread(s: State, t: nat, th: Thread): State
    requires t < |s.threads|
  {
    s.(threads := s.threads[t := th])
  }

  function Goto(s: State, t: nat, pc: Pc): State
    requires t < |s.threads|
  {
    SetThread(s, t, s.threads[t].(pc := pc))
  }

  function SetCore(s: State, c: nat, core: Core): State
    requires c < |s.cores|
  {
    s.(cores := s.cores[c := core])
  }

  function SetJob(s: State, j: nat, job: Job): State
    requires j < |s.jobs|
  {
    s.(jobs := s.jobs[j := job])
  }

  function SetBo(s: State, b: nat, bo: Bo): State
    requires b < |s.bos|
  {
    s.(bos := s.bos[b := bo])
  }

  function Detached(s: State, c: nat): State
    requires c < |s.mmus|
  {
    s.(mmus := s.mmus[c := Mmu(None, None)])
  }

  // kref_get on the domain at address a, stored in h.
  function TakeDom(s: State, h: DomHolder, a: nat): State {
    if a in s.domRefs.kref then s.(domRefs := R.Get(s.domRefs, h, a)) else Raise(s, true, UseAfterFree)
  }

  predicate InUse(mmus: seq<Mmu>, gen: nat) {
    exists c | 0 <= c < |mmus| :: mmus[c].hw == Some(gen)
  }

  // rocket_iommu_domain_put through h; the last put frees the paging domain.
  function DropDom(s: State, h: DomHolder): State {
    if h !in s.domRefs.ptr || s.domRefs.ptr[h] !in s.domRefs.kref || s.domRefs.ptr[h] !in s.doms then
      Raise(s, true, UseAfterFree)
    else if R.IsLast(s.domRefs, h) then
      var a := s.domRefs.ptr[h];
      s.(domRefs := R.Put(s.domRefs, h), doms := s.doms - {a},
         faults := s.faults + When(InUse(s.mmus, s.doms[a].gen), FreedWhileAttached))
    else
      s.(domRefs := R.Put(s.domRefs, h))
  }

  // drm_gem_object_put; what follows the last put is FreeUnmap/FreeNode/FreeDomain below.
  function DropBo(s: State, h: BoHolder): State {
    if h in s.boRefs.ptr && s.boRefs.ptr[h] in s.boRefs.kref then s.(boRefs := R.Put(s.boRefs, h))
    else Raise(s, true, UseAfterFree)
  }

  // rocket_job_put; the last put runs rocket_job_cleanup, which drops job->domain if set.
  function DropJob(s: State, h: JobHolder): State {
    if h !in s.jobRefs.ptr || s.jobRefs.ptr[h] !in s.jobRefs.kref || s.jobRefs.ptr[h] >= |s.jobs| then
      Raise(s, true, UseAfterFree)
    else
      var j := s.jobRefs.ptr[h];
      var last := R.IsLast(s.jobRefs, h);
      var s1 := s.(jobRefs := R.Put(s.jobRefs, h));
      if !last then s1
      else
        var s2 := Raise(s1, s.jobs[j].base == Ready, BaseMisuse);
        if JobDom(j) in s.domRefs.ptr then DropDom(s2, JobDom(j)) else s2
  }

  // drm_sched_job_cleanup: exactly one per initialised job.
  function CleanBase(s: State, j: nat): State
    requires j < |s.jobs|
  {
    Raise(SetJob(s, j, s.jobs[j].(base := Clean)), s.jobs[j].base != Ready, BaseMisuse)
  }

  // dma_fence_signal on core c's done fence q.
  function Signal(s: State, c: nat, q: nat): State
    requires c < |s.cores|
  {
    Raise(SetCore(s, c, s.cores[c].(signalled := s.cores[c].signalled + {q})),
          q in s.cores[c].signalled, DoubleSignal)
  }

  // dma_fence_set_error before the signal
  function SignalError(s: State, c: nat, q: nat): State
    requires c < |s.cores|
  {
    var s1 := Signal(s, c, q);
    SetCore(s1, c, s1.cores[c].(failed := s1.cores[c].failed + {q}))
  }

  function PowerPut(s: State): State {
    Raise(s, s.pm.refs == 0, PowerUnderflow).(pm := P.Put(s.pm))
  }

  // rocket_job_hw_submit: skipped while a reset is pending; otherwise reads the task array
  // and starts the hardware.
  function HwSubmit(s: State, c: nat, j: nat): State
    requires c < |s.cores| && c < |s.mmus| && j < |s.jobs|
  {
    if s.cores[c].resetPending then s
    else
      s.(jobs := s.jobs[j := s.jobs[j].(next := s.jobs[j].next + 1)],
         launches := s.launches + [Launch(c, j, s.mmus[c].hw)],
         stale := s.stale + if s.jobs[j].submitter in s.maps then {} else {TaskArray(j)})
  }

  predicate HasSpace(s: State, b: nat) {
    BoDom(b) in s.domRefs.ptr && s.domRefs.ptr[BoDom(b)] in s.doms
  }

  function SpaceOf(s: State, b: nat): A.Space
    requires HasSpace(s, b)
  {
    s.doms[s.domRefs.ptr[BoDom(b)]].space
  }

  function SetSpace(s: State, b: nat, sp: A.Space): State
    requires HasSpace(s, b)
  {
    var a := s.domRefs.ptr[BoDom(b)];
    s.(doms := s.doms[a := s.doms[a].(space := sp)])
  }

  // iommu_unmap(bo->domain->domain, bo->mm.start, bo->size)
  function UnmapBo(s: State, b: nat): State
    requires b < |s.bos|
  {
    if !HasSpace(s, b) || b !in SpaceOf(s, b).nodes then Raise(s, true, UseAfterFree)
    else
      var sp := SpaceOf(s, b);
      Raise(SetSpace(s, b, A.Unmap(sp, b, s.bos[b].size)), !A.UnmapsAll(sp, b, s.bos[b].size), UnmapShort)
        .(bos := s.bos[b := s.bos[b].(st := HasNode)])
  }

  // drm_mm_remove_node under mm_lock
  function RemoveNode(s: State, b: nat): State
    requires b < |s.bos|
  {
    if !HasSpace(s, b) then Raise(s, true, UseAfterFree)
    else SetSpace(s, b, A.Remove(SpaceOf(s, b), b)).(bos := s.bos[b := s.bos[b].(st := HasDomain)])
  }

  // ---- rocket_iommu_domain_get ----

  function Target(s: State, t: nat): DomHolder
    requires t < |s.threads| && (s.threads[t].submit ==> s.threads[t].job.Some?)
  {
    if s.threads[t].submit then JobDom(s.threads[t].job.value) else BoDom(s.threads[t].bo)
  }

  function MySlot(s: State, t: nat): DomHolder
    requires t < |s.threads|
  {
    Slot(s.threads[t].file, s.threads[t].idx)
  }

  // rocket_iommu_domain_get returns the domain at address a to its caller.
  function Granted(s: State, t: nat, a: nat, pc: Pc): State
    requires WellTyped(s) && t < |s.threads| && (s.threads[t].submit ==> s.threads[t].job.Some?)
  {
    var th := s.threads[t];
    var s1 := TakeDom(Goto(s, t, pc), Target(s, t), a);
    var s2 := if a in s.doms then s1.(grants := s.grants + [Grant(t, th.file, th.idx, s.doms[a].gen)]) else s1;
    if th.submit then s2 else s2.(bos := s.bos[th.bo := s.bos[th.bo].(st := HasDomain)])
  }

  function AfterGet(th: Thread): Pc {
    if th.submit then Push else Pages
  }

  // First section under domains_lock.
  function LookupStep(s: State, t: nat): State
    requires WellTyped(s) && t < |s.threads| && s.threads[t].pc == Lookup
  {
    if MySlot(s, t) in s.domRefs.ptr then Granted(s, t, s.domRefs.ptr[MySlot(s, t)], AfterGet(s.threads[t]))
    else Goto(s, t, Create)
  }

  // rocket_iommu_domain_create, outside the lock, at any address not in use.
  function CreateStep(s: State, t: nat, ok: bool, a: nat): State
    requires t < |s.threads|
  {
    var th := s.threads[t];
    if !ok then Goto(s, t, if th.submit then Cleanup else UndoAlloc)
    else
      Goto(s, t, Install).(
        domRefs := R.New(s.domRefs, Cand(t), a),
        doms := s.doms[a := Dom(th.file, th.idx, s.gen, A.Empty(s.lo, s.hi))],
        gen := s.gen + 1)
  }

  // Second section under domains_lock: re-check, then install or take the winner's.
  function InstallStep(s: State, t: nat): State
    requires WellTyped(s) && t < |s.threads| && s.threads[t].pc == Install
  {
    if MySlot(s, t) in s.domRefs.ptr then Granted(s, t, s.domRefs.ptr[MySlot(s, t)], Discard)
    else if Cand(t) !in s.domRefs.ptr then Raise(s, true, UseAfterFree)
    else
      var a := s.domRefs.ptr[Cand(t)];
      Granted(s.(domRefs := R.Move(s.domRefs, Cand(t), MySlot(s, t))), t, a, AfterGet(s.threads[t]))
  }

  // The loser's spare domain.
  function DiscardStep(s: State, t: nat): State
    requires t < |s.threads|
  {
    Goto(DropDom(s, Cand(t)), t, AfterGet(s.threads[t]))
  }

  // ---- rkopnu_ioctl_mem_create and rocket_gem_bo_free ----

  function CallMemCreate(s: State, f: nat, id: int, size: nat): State {
    var t, b := |s.threads|, |s.bos|;
    s.(threads := s.threads + [Thread(f, false, Norm(id), b, None, Lookup, 0, 0, 0, 0, false)],
       bos := s.bos + [Bo(f, Norm(id), t, size, 0, Fresh, false)],
       boRefs := R.New(s.boRefs, Maker(t), b))
  }

  function PagesStep(s: State, t: nat, ok: bool): State
    requires t < |s.threads|
  {
    Goto(s, t, if ok then Insert else UndoDomain)
  }

  function InsertStep(s: State, t: nat, ok: bool, start: nat): State
    requires WellTyped(s) && t < |s.threads|
  {
    var b := s.threads[t].bo;
    if !HasSpace(s, b) then Raise(s, true, UseAfterFree)
    else if !ok then Goto(s, t, UndoDomain)
    else
      SetSpace(Goto(s, t, MapIova), b, A.Insert(SpaceOf(s, b), b, start, s.bos[b].size))
        .(bos := s.bos[b := s.bos[b].(st := HasNode, start := start)])
  }

  // iommu_map_sgtable; on success bo->size becomes the mapped, page-rounded length.
  function MapStep(s: State, t: nat, ok: bool): State
    requires WellTyped(s) && t < |s.threads|
  {
    var b := s.threads[t].bo;
    if !HasSpace(s, b) || b !in SpaceOf(s, b).nodes then Raise(s, true, UseAfterFree)
    else if !ok then Goto(s, t, UndoInsert)
    else
      SetSpace(Goto(s, t, MakeHandle), b, A.Map(SpaceOf(s, b), b))
        .(bos := s.bos[b := s.bos[b].(st := Mapped, size := A.Pages(s.bos[b].size) * A.PAGE)])
  }

  function HandleStep(s: State, t: nat, ok: bool): State
    requires WellTyped(s) && t < |s.threads|
  {
    var b := s.threads[t].bo;
    if !ok then Goto(s, t, UndoMap)
    else if b !in s.boRefs.kref then Raise(s, true, UseAfterFree)
    else
      Goto(s, t, Finish).(
        boRefs := R.Get(s.boRefs, Handle(b), b),
        bos := s.bos[b := s.bos[b].(published := true)])
  }

  // drm_gem_object_put of the creation reference, then return 0.
  function FinishStep(s: State, t: nat): State
    requires t < |s.threads|
  {
    var th := s.threads[t];
    SetThread(DropBo(s, Maker(t)), t, th.(pc := Done, success := true))
  }

  function UndoMapStep(s: State, t: nat): State
    requires WellTyped(s) && t < |s.threads|
  {
    Goto(UnmapBo(s, s.threads[t].bo), t, UndoInsert)
  }

  function UndoInsertStep(s: State, t: nat): State
    requires WellTyped(s) && t < |s.threads|
  {
    Goto(RemoveNode(s, s.threads[t].bo), t, UndoDomain)
  }

  function UndoDomainStep(s: State, t: nat): State
    requires WellTyped(s) && t < |s.threads|
  {
    var b := s.threads[t].bo;
    Goto(SetBo(DropDom(s, BoDom(b)), b, s.bos[b].(st := Fresh)), t, UndoAlloc)
  }

  function UndoAllocStep(s: State, t: nat): State
    requires WellTyped(s) && t < |s.threads|
  {
    var b := s.threads[t].bo;
    Goto(SetBo(DropBo(s, Maker(t)), b, s.bos[b].(st := Freed)), t, Done)
  }

  function FreeDomain(s: State, b: nat): State
    requires b < |s.bos|
  {
    SetBo(DropDom(s, BoDom(b)), b, s.bos[b].(st := Freed))
  }

  // ---- rkopnu_ioctl_submit ----

  // task_obj_addr names a published buffer; the reference is taken at once.
  function CallSubmit(s: State, f: nat, id: int, core: nat, b: nat, tasks: nat, number: nat): State
    requires b in s.boRefs.kref
  {
    var t := |s.threads|;
    s.(threads := s.threads + [Thread(f, true, Norm(id), b, None, Vmap, core, tasks, number, 0, false)],
       boRefs := R.Get(s.boRefs, Task(t), b))
  }

  function VmapStep(s: State, t: nat, ok: bool): State
    requires t < |s.threads|
  {
    if ok then Goto(s, t, Alloc).(maps := s.maps + {t}) else Goto(s, t, PutTask)
  }

  function AllocStep(s: State, t: nat, ok: bool): State
    requires t < |s.threads|
  {
    var th := s.threads[t];
    if !ok then Goto(s, t, Vunmap)
    else
      var j := |s.jobs|;
      SetThread(s, t, th.(pc := InitJob, job := Some(j))).(
        jobs := s.jobs + [Job(th.file, th.idx, th.core, th.tasks, 0, 0, false, Init, Raw, 0, Inside, t)],
        jobRefs := R.New(s.jobRefs, Submitter(t), j))
  }

  function InitStep(s: State, t: nat, ok: bool): State
    requires WellTyped(s) && t < |s.threads| && s.threads[t].job.Some?
  {
    var j := s.threads[t].job.value;
    if ok then SetJob(Goto(s, t, Lookup), j, s.jobs[j].(base := Ready)) else Goto(s, t, PutJob)
  }

  // rocket_job_push: the scheduler's reference, then the queue.
  function PushStep(s: State, t: nat, ok: bool): State
    requires WellTyped(s) && t < |s.threads| && s.threads[t].job.Some?
  {
    var j := s.threads[t].job.value;
    if !ok then Goto(s, t, Cleanup)
    else if j !in s.jobRefs.kref then Raise(s, true, UseAfterFree)
    else
      SetJob(Goto(s, t, Wait), j, s.jobs[j].(st := Queued)).(jobRefs := R.Get(s.jobRefs, Sched(j), j))
  }

  // dma_fence_wait_timeout returned a positive value: the fence is signalled.
  function WaitDone(s: State, t: nat): State
    requires t < |s.threads|
  {
    var th := s.threads[t];
    SetThread(s, t, th.(pc := PutJob, counter := th.number, success := true))
  }

  // The 5 s bound expired.
  function WaitExpire(s: State, t: nat): State
    requires t < |s.threads|
  {
    SetThread(s, t, s.threads[t].(pc := PutJob, counter := 0))
  }

  function CleanupStep(s: State, t: nat): State
    requires WellTyped(s) && t < |s.threads| && s.threads[t].job.Some?
  {
    Goto(CleanBase(s, s.threads[t].job.value), t, PutJob)
  }

  function PutJobStep(s: State, t: nat): State
    requires t < |s.threads|
  {
    Goto(DropJob(s, Submitter(t)), t, Vunmap)
  }

  function VunmapStep(s: State, t: nat): State
    requires t < |s.threads|
  {
    Goto(s, t, PutTask).(maps := s.maps - {t})
  }

  function PutTaskStep(s: State, t: nat): State
    requires t < |s.threads|
  {
    Goto(DropBo(s, Task(t)), t, Done)
  }

  // ---- scheduler and rocket_job_run ----

  // Has an interrupt signalled job j's done fence?
  predicate Interrupted(job: Job, cores: seq<Core>) {
    && 0 < job.fence && job.core < |cores|
    && job.fence in cores[job.core].signalled && job.fence !in cores[job.core].failed
  }

  // A job leaves the scheduler: its finished fence is signalled and the credit returned.
  function FinishJob(s: State, j: nat, exit: Exit): State
    requires WellTyped(s) && j < |s.jobs|
  {
    var c := s.jobs[j].core;
    var s1 := SetJob(s, j, s.jobs[j].(st := Finished, exit := exit));
    if s.cores[c].slot == Some(j) then SetCore(s1, c, s.cores[c].(slot := None)) else s1
  }

  // rocket_fence_create and done_fence
  function RunBegin(s: State, j: nat): State
    requires WellTyped(s) && j < |s.jobs|
  {
    var c := s.jobs[j].core;
    var q := s.cores[c].seqno + 1;
    SetJob(SetCore(s, c, s.cores[c].(run := Fenced(j), slot := Some(j), seqno := q)),
           j, s.jobs[j].(st := Active, fence := q))
  }

  // rocket_device_pm_get, where `fail` is the first core that refuses to resume.
  function RunPower(s: State, c: nat, fail: nat): State
    requires c < |s.cores| && !s.cores[c].run.Idle?
  {
    SetCore(s, c, s.cores[c].(run := if P.GetOk(s.pm, fail) then Powered(s.cores[c].run.job) else Idle))
      .(pm := P.Get(s.pm, fail))
  }

  predicate JobLive(s: State, j: nat) {
    && j in s.jobRefs.kref
    && JobDom(j) in s.domRefs.ptr && s.domRefs.ptr[JobDom(j)] in s.doms
  }

  // May the attach in this section fail?  Only if one is attempted.
  predicate Attaches(s: State, c: nat, j: nat)
    requires c < |s.mmus|
  {
    s.policy.AttachPerJob? || JobDom(j) !in s.domRefs.ptr || s.mmus[c].attached != Some(s.domRefs.ptr[JobDom(j)])
  }

  // The job_lock section of rocket_job_run.
  function RunSection(s: State, c: nat, attachErr: bool): State
    requires WellTyped(s) && c < |s.cores| && !s.cores[c].run.Idle?
  {
    var j := s.cores[c].run.job;
    if !JobLive(s, j) then Raise(s, true, UseAfterFree)
    else
      var a := s.domRefs.ptr[JobDom(j)];
      var mmu := if !Attaches(s, c, j) then s.mmus[c]
                 else if attachErr then Mmu(None, None) else Mmu(Some(a), Some(s.doms[a].gen));
      var s1 := s.(mmus := s.mmus[c := mmu]);
      if attachErr then SetCore(s1, c, s.cores[c].(run := Refused(j)))
      else
        HwSubmit(Raise(SetCore(s1, c, s.cores[c].(flight := Some(j), run := Idle)),
                       s.cores[c].flight.Some?, PowerLeak), c, j)
  }

  // After a refused attach: drop the power reference, then fail the fence.
  function RunUnpower(s: State, c: nat): State
    requires c < |s.cores| && !s.cores[c].run.Idle?
  {
    SetCore(PowerPut(s), c, s.cores[c].(run := Unpowered(s.cores[c].run.job)))
  }

  function RunFail(s: State, c: nat): State
    requires WellTyped(s) && c < |s.cores| && !s.cores[c].run.Idle?
  {
    var s1 := SignalError(s, c, s.jobs[s.cores[c].run.job].fence);
    SetCore(s1, c, s1.cores[c].(run := Idle))
  }

  // rocket_job_free
  function SchedFree(s: State, j: nat): State
    requires j < |s.jobs|
  {
    DropJob(CleanBase(s, j), Sched(j))
  }

  // ---- rocket_job_handle_irq ----

  // Entry under job_lock: nothing in flight, next task, or completion.
  function Irq(s: State, c: nat): State
    requires WellTyped(s) && c < |s.cores|
  {
    var core := s.cores[c];
    if core.flight.None? then s
    else
      var j := core.flight.value;
      if !JobLive(s, j) then Raise(s, true, UseAfterFree)
      else if s.jobs[j].next < s.jobs[j].tasks then HwSubmit(s, c, j)
      else
        var s1 := Signal(s, c, s.jobs[j].fence);
        var s2 := SetCore(s1, c, s1.cores[c].(lock := IrqSignalled));
        if s.policy.AttachPerJob? then Detached(s2, c) else s2
  }

  function IrqPower(s: State, c: nat): State
    requires c < |s.cores|
  {
    SetCore(PowerPut(s), c, s.cores[c].(lock := IrqReleased))
  }

  function IrqClear(s: State, c: nat): State
    requires c < |s.cores|
  {
    SetCore(s, c, s.cores[c].(lock := Unlocked, flight := None))
  }

  // ---- rocket_job_timedout and rocket_reset ----

  function Timeout(s: State, c: nat, j: nat): State
    requires c < |s.cores|
  {
    SetCore(s, c, s.cores[c].(reset := Pending(j), resetPending := true))
  }

  function ResetStop(s: State, c: nat): State
    requires c < |s.cores| && !s.cores[c].reset.Quiet?
  {
    SetCore(s, c, s.cores[c].(reset := Stopped(s.cores[c].reset.job)))
  }

  function ResetPower(s: State, c: nat): State
    requires c < |s.cores|
  {
    SetCore(if s.cores[c].flight.Some? then PowerPut(s) else s, c, s.cores[c].(lock := ResetEntered))
  }

  function ResetDetach(s: State, c: nat): State
    requires c < |s.cores| && c < |s.mmus|
  {
    SetCore(if s.mmus[c].attached.Some? then Detached(s, c) else s, c, s.cores[c].(lock := ResetDetached))
  }

  function ResetClear(s: State, c: nat): State
    requires c < |s.cores| && !s.cores[c].reset.Quiet?
  {
    SetCore(s, c, s.cores[c].(lock := Unlocked, flight := None, reset := Cleared(s.cores[c].reset.job)))
  }

  function ResetResume(s: State, c: nat): State
    requires c < |s.cores| && !s.cores[c].reset.Quiet?
  {
    SetCore(s, c, s.cores[c].(resetPending := false, reset := Resumable(s.cores[c].reset.job)))
  }

  // drm_sched_start: the pending job is cancelled; `requeue` also allows a scheduler that
  // hands it back to be run again.
  function Restart(s: State, c: nat, requeue: bool): State
    requires WellTyped(s) && c < |s.cores| && !s.cores[c].reset.Quiet?
  {
    var core := s.cores[c].(slot := None, reset := Restarted(s.cores[c].reset.job));
    var s1 := SetCore(s, c, core);
    if s.cores[c].slot.None? then s1
    else
      var j := s.cores[c].slot.value;
      SetJob(s1, j, if requeue then s.jobs[j].(st := Queued)
                    else s.jobs[j].(st := Finished, exit := Cancelled(Interrupted(s.jobs[j], s.cores))))
  }

  // ++job->timeout_count and the decision to give up, after the scheduler has been restarted.
  function CountTimeout(s: State, c: nat): State
    requires WellTyped(s) && c < |s.cores| && !s.cores[c].reset.Quiet?
  {
    var j := s.cores[c].reset.job;
    var count := s.jobs[j].timeouts + 1;
    SetCore(SetJob(s, j, s.jobs[j].(timeouts := count, abandoned := count > PATIENCE)), c, s.cores[c].(reset := Quiet))
      .(stale := s.stale + if j in s.jobRefs.kref then {} else {TimeoutCount(j)})
  }

  // ---- rocket_postclose ----

  // rocket_job_close on one core, under that core's job_lock.
  function CloseDetach(s: State, f: nat, c: nat): State
    requires f < |s.files| && c < |s.cores| == |s.mmus|
  {
    var mine := exists i: nat | i < MAX_DOMAINS ::
      Slot(f, i) in s.domRefs.ptr && s.mmus[c].attached == Some(s.domRefs.ptr[Slot(f, i)]);
    (if mine then Detached(s, c) else s)
      .(files := s.files[f := if c + 1 < |s.cores| then Detaching(c + 1) else Draining(0)])
  }

  // rocket_iommu_domains_close on one slot.
  function CloseSlot(s: State, f: nat, i: nat): State
    requires f < |s.files|
  {
    var s1 := s.(files := s.files[f := if i + 1 < MAX_DOMAINS then Draining(i + 1) else Closed]);
    if Slot(f, i) !in s.domRefs.ptr then s1
    else if s.domRefs.ptr[Slot(f, i)] !in s.doms then Raise(s1, true, UseAfterFree)
    else
      DropDom(Raise(s1, s.doms[s.domRefs.ptr[Slot(f, i)]].space.nodes != map[], AllocatorNotEmpty), Slot(f, i))
  }

  // ---- the step relation ----

  datatype FileOp = CloseBegin | CloseCore | CloseDomain

  datatype BoOp = DropHandle | BoUnmap | BoRemove | BoRelease

  datatype JobOp = Skip | Begin | Complete | Free

  datatype CoreOp =
      // rocket_job_run past the fence
    | Power(fail: nat) | Section(attachErr: bool) | Unpower | Fail
      // rocket_job_handle_irq
    | Interrupt | InterruptPower | InterruptClear
      // rocket_job_timedout
    | TimedOut(j: nat) | StopSched | ReleasePower | DetachCore | ClearFlight | ResumeCore
    | StartSched(requeue: bool) | Count

  datatype Step =
    | OpenFile
    | OnFile(f: nat, fop: FileOp)
    | StartMemCreate(f: nat, id: int, size: nat)
    | StartSubmit(f: nat, id: int, core: nat, bo: nat, tasks: nat, number: nat)
      // one step of ioctl thread t; ok and arg are the environment's answer
    | Advance(t: nat, ok: bool, arg: nat)
    | Expire(t: nat)
    | OnBo(b: nat, bop: BoOp)
    | OnJob(j: nat, jop: JobOp)
    | OnCore(c: nat, cop: CoreOp)

  // What the environment guarantees about an ioctl thread's next step.
  ghost predicate CanAdvance(s: State, t: nat, ok: bool, arg: nat)
    requires WellTyped(s) && t < |s.threads|
  {
    var th := s.threads[t];
    match th.pc
    case Create => ok ==> arg !in s.doms
    case Insert => ok && HasSpace(s, th.bo) ==> A.CanInsert(SpaceOf(s, th.bo), th.bo, arg, s.bos[th.bo].size)
    case Wait => th.job.Some? && s.jobs[th.job.value].st == Finished
    case Done => false
    case _ => true
  }

  function AdvanceThread(s: State, t: nat, ok: bool, arg: nat): State
    requires WellTyped(s) && t < |s.threads|
  {
    match s.threads[t].pc
    case Lookup => LookupStep(s, t)
    case Create => CreateStep(s, t, ok, arg)
    case Install => InstallStep(s, t)
    case Discard => DiscardStep(s, t)
    case Pages => PagesStep(s, t, ok)
    case Insert => InsertStep(s, t, ok, arg)
    case MapIova => MapStep(s, t, ok)
    case MakeHandle => HandleStep(s, t, ok)
    case Finish => FinishStep(s, t)
    case UndoMap => UndoMapStep(s, t)
    case UndoInsert => UndoInsertStep(s, t)
    case UndoDomain => UndoDomainStep(s, t)
    case UndoAlloc => UndoAllocStep(s, t)
    case Vmap => VmapStep(s, t, ok)
    case Alloc => AllocStep(s, t, ok)
    case InitJob => if s.threads[t].job.Some? then InitStep(s, t, ok) else s
    case Push => if s.threads[t].job.Some? then PushStep(s, t, ok) else s
    case Wait => WaitDone(s, t)
    case Cleanup => if s.threads[t].job.Some? then CleanupStep(s, t) else s
    case PutJob => PutJobStep(s, t)
    case Vunmap => VunmapStep(s, t)
    case PutTask => PutTaskStep(s, t)
    case Done => s
  }

  predicate Dying(s: State, b: nat, st: BoState) {
    b < |s.bos| && s.bos[b].published && b !in s.boRefs.kref && s.bos[b].st == st
  }

  // The file's ioctls have returned, DRM has released its buffers and none of its jobs is
  // queued or running: what rocket_postclose relies on.
  ghost predicate CanClose(s: State, f: nat) {
    && (forall t | 0 <= t < |s.threads| :: s.threads[t].file == f ==> s.threads[t].pc == Done)
    && (forall b | 0 <= b < |s.bos| :: s.bos[b].file == f ==> s.bos[b].st == Freed)
    && (forall j | 0 <= j < |s.jobs| :: s.jobs[j].file == f ==> !s.jobs[j].st.Queued? && !s.jobs[j].st.Active?)
  }

  // While a timeout handler is between entry and drm_sched_start the scheduler keeps its job.
  predicate Guarded(r: Reset) {
    !r.Quiet? && !r.Restarted?
  }

  ghost predicate FileEnabled(s: State, f: nat, op: FileOp)
    requires WellTyped(s) && f < |s.files|
  {
    match op
    case CloseBegin => s.files[f].Open? && CanClose(s, f)
    case CloseCore => s.files[f].Detaching? && s.files[f].core < |s.cores| && s.cores[s.files[f].core].lock.Unlocked?
    case CloseDomain => s.files[f].Draining?
  }

  function FileApply(s: State, f: nat, op: FileOp): State
    requires f < |s.files| && |s.cores| == |s.mmus|
    requires op.CloseCore? ==> s.files[f].Detaching? && s.files[f].core < |s.cores|
    requires op.CloseDomain? ==> s.files[f].Draining?
  {
    match op
    case CloseBegin => s.(files := s.files[f := Detaching(0)])
    case CloseCore => CloseDetach(s, f, s.files[f].core)
    case CloseDomain => CloseSlot(s, f, s.files[f].slot)
  }

  predicate BoEnabled(s: State, b: nat, op: BoOp) {
    match op
    case DropHandle => Handle(b) in s.boRefs.ptr
    case BoUnmap => Dying(s, b, Mapped)
    case BoRemove => Dying(s, b, HasNode)
    case BoRelease => Dying(s, b, HasDomain)
  }

  function BoApply(s: State, b: nat, op: BoOp): State
    requires BoEnabled(s, b, op)
  {
    match op
    case DropHandle => DropBo(s, Handle(b))
    case BoUnmap => UnmapBo(s, b)
    case BoRemove => RemoveNode(s, b)
    case BoRelease => FreeDomain(s, b)
  }

  ghost predicate JobEnabled(s: State, j: nat, op: JobOp)
    requires WellTyped(s) && j < |s.jobs|
  {
    var job := s.jobs[j];
    var core := s.cores[job.core];
    match op
    case Skip => job.st == Queued
    case Begin => job.st == Queued && job.next != job.tasks && core.slot.None?
                  && (core.reset.Quiet? || core.reset.Pending? || core.reset.Restarted?)
    case Complete => job.st == Active && core.run.Idle? && core.slot == Some(j) && job.fence in core.signalled
    case Free => job.st == Finished && Sched(j) in s.jobRefs.ptr
                 && (forall c | 0 <= c < |s.cores| :: Guarded(s.cores[c].reset) ==> s.cores[c].reset.job != j)
  }

  ghost function JobApply(s: State, j: nat, op: JobOp): State
    requires WellTyped(s) && j < |s.jobs|
  {
    match op
    case Skip => FinishJob(s, j, Skipped(Interrupted(s.jobs[j], s.cores)))
    case Begin => RunBegin(s, j)
    case Complete =>
      FinishJob(s, j, if s.jobs[j].fence in s.cores[s.jobs[j].core].failed then Refusal else Completion)
    case Free => SchedFree(s, j)
  }

  ghost predicate CoreEnabled(s: State, c: nat, op: CoreOp)
    requires WellTyped(s) && c < |s.cores|
  {
    var core := s.cores[c];
    match op
    case Power(fail) => core.run.Fenced?
    case Section(attachErr) => core.run.Powered? && core.lock.Unlocked? && (attachErr ==> Attaches(s, c, core.run.job))
    case Unpower => core.run.Refused?
    case Fail => core.run.Unpowered?
    case Interrupt => core.lock.Unlocked?
    case InterruptPower => core.lock.IrqSignalled?
    case InterruptClear => core.lock.IrqReleased?
    case TimedOut(j) => core.reset.Quiet? && j < |s.jobs| && s.jobs[j].core == c
                        && (s.jobs[j].st.Active? || s.jobs[j].st.Finished?) && Sched(j) in s.jobRefs.ptr
                        && !s.jobs[j].abandoned
    case StopSched => core.reset.Pending? && core.run.Idle?
    case ReleasePower => core.reset.Stopped? && core.lock.Unlocked?
    case DetachCore => core.reset.Stopped? && core.lock.ResetEntered?
    case ClearFlight => core.reset.Stopped? && core.lock.ResetDetached?
    case ResumeCore => core.reset.Cleared?
    case StartSched(requeue) => core.reset.Resumable?
    case Count => core.reset.Restarted?
  }

  ghost function CoreApply(s: State, c: nat, op: CoreOp): State
    requires WellTyped(s) && c < |s.cores| && CoreEnabled(s, c, op)
  {
    match op
    case Power(fail) => RunPower(s, c, fail)
    case Section(attachErr) => RunSection(s, c, attachErr)
    case Unpower => RunUnpower(s, c)
    case Fail => RunFail(s, c)
    case Interrupt => Irq(s, c)
    case InterruptPower => IrqPower(s, c)
    case InterruptClear => IrqClear(s, c)
    case TimedOut(j) => Timeout(s, c, j)
    case StopSched => ResetStop(s, c)
    case ReleasePower => ResetPower(s, c)
    case DetachCore => ResetDetach(s, c)
    case ClearFlight => ResetClear(s, c)
    case ResumeCore => ResetResume(s, c)
    case StartSched(requeue) => Restart(s, c, requeue)
    case Count => CountTimeout(s, c)
  }

  ghost predicate Enabled(s: State, st: Step)
    requires WellTyped(s)
  {
    match st
    case OpenFile => true
    case OnFile(f, op) => f < |s.files| && FileEnabled(s, f, op)
    case StartMemCreate(f, id, size) => f < |s.files| && s.files[f].Open? && A.Pages(size) * A.PAGE < 0x8000_0000
    case StartSubmit(f, id, core, bo, tasks, number) =>
      f < |s.files| && s.files[f].Open? && core < |s.cores| && number > 0
      && bo < |s.bos| && bo in s.boRefs.kref && s.bos[bo].published
    case Advance(t, ok, arg) => t < |s.threads| && CanAdvance(s, t, ok, arg)
    case Expire(t) => t < |s.threads| && s.threads[t].pc == Wait && s.threads[t].job.Some?
                      && s.jobs[s.threads[t].job.value].st != Finished
    case OnBo(b, op) => BoEnabled(s, b, op)
    case OnJob(j, op) => j < |s.jobs| && JobEnabled(s, j, op)
    case OnCore(c, op) => c < |s.cores| && CoreEnabled(s, c, op)
  }

  ghost function Apply(s: State, st: Step): State
    requires WellTyped(s) && Enabled(s, st)
  {
    match st
    case OpenFile => s.(files := s.files + [Open])
    case OnFile(f, op) => FileApply(s, f, op)
    case StartMemCreate(f, id, size) => CallMemCreate(s, f, id, size)
    case StartSubmit(f, id, core, bo, tasks, number) => CallSubmit(s, f, id, core, bo, tasks, number)
    case Advance(t, ok, arg) => AdvanceThread(s, t, ok, arg)
    case Expire(t) => WaitExpire(s, t)
    case OnBo(b, op) => BoApply(s, b, op)
    case OnJob(j, op) => JobApply(s, j, op)
    case OnCore(c, op) => CoreApply(s, c, op)
  }
}
