/**
 The invariant of every run, in groups that mention only the components they depend on.
 */
module Invariants {
  import opened Options
  import opened Machine
  import R = Refs
  import P = Power
  import A = AddressSpace

  // ---- who may hold a domain ----

  predicate HasCand(pc: Pc) {
    pc.Install? || pc.Discard?
  }

  predicate HasDom(st: BoState) {
    st.HasDomain? || st.HasNode? || st.Mapped?
  }

  // Pool slots are untouched until the file is drained, then cleared in order.
  predicate SlotKept(f: FilePhase, i: nat) {
    f.Open? || f.Detaching? || (f.Draining? && f.slot <= i)
  }

  predicate Pooled(f: FilePhase) {
    f.Open? || f.Detaching?
  }

  ghost predicate DomHolderOk(h: DomHolder, files: seq<FilePhase>, threads: seq<Thread>, bos: seq<Bo>,
                              jobs: seq<Job>, jobKref: map<nat, nat>)
  {
    match h
    case Slot(f, i) => f < |files| && i < MAX_DOMAINS && SlotKept(files[f], i)
    case Cand(t) => t < |threads| && HasCand(threads[t].pc)
    case BoDom(b) => b < |bos| && HasDom(bos[b].st)
    case JobDom(j) => j < |jobs| && j in jobKref
  }

  ghost predicate DomHolders(ptr: map<DomHolder, nat>, files: seq<FilePhase>, threads: seq<Thread>, bos: seq<Bo>,
                             jobs: seq<Job>, jobKref: map<nat, nat>)
  {
    && (forall h <- ptr :: DomHolderOk(h, files, threads, bos, jobs, jobKref))
    && (forall t | 0 <= t < |threads| :: HasCand(threads[t].pc) ==> Cand(t) in ptr)
    && (forall b | 0 <= b < |bos| :: HasDom(bos[b].st) ==> BoDom(b) in ptr)
    && (forall j | 0 <= j < |jobs| :: !jobs[j].st.Init? && j in jobKref ==> JobDom(j) in ptr)
  }

  // ---- which domain a holder's pointer names ----

  ghost predicate LinkOk(h: DomHolder, a: nat, ptr: map<DomHolder, nat>, doms: map<nat, Dom>, files: seq<FilePhase>,
                         threads: seq<Thread>, bos: seq<Bo>, jobs: seq<Job>)
  {
    && a in doms
    && (match h
        case Slot(f, i) => doms[a].file == f && doms[a].idx == i
        case Cand(t) => t < |threads| && doms[a].file == threads[t].file && doms[a].idx == threads[t].idx
                        && doms[a].space.nodes == map[]
        case BoDom(b) => b < |bos| && doms[a].file == bos[b].file && doms[a].idx == bos[b].idx
        case JobDom(j) => j < |jobs| && doms[a].file == jobs[j].file && doms[a].idx == jobs[j].idx)
    && (!h.Cand? && doms[a].file < |files| && Pooled(files[doms[a].file]) ==>
          var slot := Slot(doms[a].file, doms[a].idx);
          slot in ptr && ptr[slot] == a)
  }

  ghost predicate DomLinks(ptr: map<DomHolder, nat>, doms: map<nat, Dom>, files: seq<FilePhase>,
                           threads: seq<Thread>, bos: seq<Bo>, jobs: seq<Job>)
  {
    && (forall h <- ptr :: LinkOk(h, ptr[h], ptr, doms, files, threads, bos, jobs))
    // a candidate is seen by nobody but its creator
    && (forall t: nat, h <- ptr :: Cand(t) in ptr && ptr[h] == ptr[Cand(t)] ==> h == Cand(t))
  }

  ghost predicate Gens(doms: map<nat, Dom>, gen: nat) {
    && (forall a <- doms :: doms[a].gen < gen)
    && (forall a <- doms, b <- doms :: doms[a].gen == doms[b].gen ==> a == b)
  }

  // ---- address spaces and buffers ----

  ghost predicate NodeOk(b: nat, a: nat, n: A.Node, ptr: map<DomHolder, nat>, bos: seq<Bo>) {
    && b < |bos| && BoDom(b) in ptr && ptr[BoDom(b)] == a
    && n.start == bos[b].start && A.Pages(n.size) == A.Pages(bos[b].size)
    && (if n.mapped then bos[b].st.Mapped? && bos[b].size == A.Pages(n.size) * A.PAGE else bos[b].st.HasNode?)
  }

  ghost predicate Spaces(lo: nat, hi: nat, doms: map<nat, Dom>, ptr: map<DomHolder, nat>, bos: seq<Bo>) {
    && hi % A.PAGE == 0
    && (forall a <- doms :: A.Ok(doms[a].space) && doms[a].space.lo == lo && doms[a].space.hi == hi)
    && (forall a <- doms, b <- doms[a].space.nodes :: NodeOk(b, a, doms[a].space.nodes[b], ptr, bos))
    && (forall b | 0 <= b < |bos| :: bos[b].st.HasNode? || bos[b].st.Mapped? ==>
          BoDom(b) in ptr && ptr[BoDom(b)] in doms && b in doms[ptr[BoDom(b)]].space.nodes)
  }

  // ---- nothing of a closing file is active ----

  ghost predicate OnlyOpen(files: seq<FilePhase>, threads: seq<Thread>, bos: seq<Bo>, jobs: seq<Job>) {
    && (forall t | 0 <= t < |threads| :: !threads[t].pc.Done? ==> InFile(files, threads[t].file))
    && (forall b | 0 <= b < |bos| :: !bos[b].st.Freed? ==> InFile(files, bos[b].file))
    && (forall j | 0 <= j < |jobs| :: jobs[j].st.Queued? || jobs[j].st.Active? ==> InFile(files, jobs[j].file))
  }

  predicate InFile(files: seq<FilePhase>, f: nat) {
    f < |files| && files[f].Open?
  }

  // ---- buffer references ----

  function CreateState(pc: Pc): BoState {
    match pc
    case Lookup => Fresh
    case Create => Fresh
    case Install => Fresh
    case UndoAlloc => Fresh
    case Discard => HasDomain
    case Pages => HasDomain
    case Insert => HasDomain
    case UndoDomain => HasDomain
    case MapIova => HasNode
    case UndoInsert => HasNode
    case _ => Mapped
  }

  predicate CreatePc(pc: Pc) {
    pc.Lookup? || pc.Create? || pc.Install? || pc.Discard? || pc.Pages? || pc.Insert? || pc.MapIova? || pc.MakeHandle?
    || pc.Finish? || pc.UndoMap? || pc.UndoInsert? || pc.UndoDomain? || pc.UndoAlloc? || pc.Done?
  }

  ghost predicate MakerOk(t: nat, th: Thread, bos: seq<Bo>, ptr: map<BoHolder, nat>) {
    && CreatePc(th.pc) && th.job.None?
    && th.bo < |bos| && bos[th.bo].maker == t
    && (th.success <==> th.pc.Done? && bos[th.bo].published)
    && (!th.pc.Done? ==>
          && Maker(t) in ptr && ptr[Maker(t)] == th.bo
          && bos[th.bo].st == CreateState(th.pc) && bos[th.bo].published == th.pc.Finish?
          && bos[th.bo].file == th.file && bos[th.bo].idx == th.idx)
  }

  ghost predicate BoHolderOk(h: BoHolder, b: nat, threads: seq<Thread>, bos: seq<Bo>) {
    && b < |bos|
    && match h
       case Maker(t) => t < |threads| && !threads[t].submit && !threads[t].pc.Done? && threads[t].bo == b
       case Handle(d) => d == b && bos[b].published
       case Task(t) => t < |threads| && threads[t].submit && !threads[t].pc.Done? && threads[t].bo == b
                       && bos[b].published
  }

  ghost predicate BoOk(b: nat, bo: Bo, threads: seq<Thread>, kref: map<nat, nat>) {
    && bo.maker < |threads| && !threads[bo.maker].submit && threads[bo.maker].bo == b
    && (bo.published && b in kref ==> bo.st.Mapped?)
    && (bo.published ==> !bo.st.Fresh?)
    && (!bo.published && !bo.st.Freed? ==> !threads[bo.maker].pc.Done?)
    && (bo.st.Freed? ==> b !in kref)
  }

  ghost predicate BoRefs(threads: seq<Thread>, bos: seq<Bo>, refs: R.Refs<BoHolder, nat>) {
    && (forall h <- refs.ptr :: BoHolderOk(h, refs.ptr[h], threads, bos))
    && (forall t | 0 <= t < |threads| :: !threads[t].submit ==> MakerOk(t, threads[t], bos, refs.ptr))
    && (forall t | 0 <= t < |threads| :: threads[t].submit && !threads[t].pc.Done? ==>
          Task(t) in refs.ptr && refs.ptr[Task(t)] == threads[t].bo)
    && (forall b | 0 <= b < |bos| :: BoOk(b, bos[b], threads, refs.kref))
    && (forall b <- refs.kref :: b < |bos|)
  }

  // ---- job references and the submit thread ----

  predicate HoldsJob(pc: Pc) {
    pc.InitJob? || BaseReady(pc) || pc.Wait? || pc.PutJob?
  }

  predicate HasMap(pc: Pc) {
    HoldsJob(pc) || pc.Alloc? || pc.Vunmap?
  }

  predicate BaseReady(pc: Pc) {
    pc.Lookup? || pc.Create? || pc.Install? || pc.Discard? || pc.Push? || pc.Cleanup?
  }

  ghost predicate SubmitOk(t: nat, th: Thread, jobs: seq<Job>, jobPtr: map<JobHolder, nat>,
                           domPtr: map<DomHolder, nat>)
  {
    && (HasMap(th.pc) || th.pc.Vmap? || th.pc.PutTask? || th.pc.Done?)
    && (th.pc.Vmap? || th.pc.Alloc? ==> th.job.None?)
    && (th.success ==> th.counter == th.number) && (!th.success ==> th.counter == 0)
    && (th.success ==> th.pc.PutJob? || th.pc.Vunmap? || th.pc.PutTask? || th.pc.Done?)
    && (HoldsJob(th.pc) ==>
          && th.job.Some? && th.job.value < |jobs|
          && Submitter(t) in jobPtr && jobPtr[Submitter(t)] == th.job.value
          && var j := jobs[th.job.value];
             && j.submitter == t && j.file == th.file && j.idx == th.idx
             && (th.pc.InitJob? || BaseReady(th.pc) ==> j.st.Init?)
             && (th.pc.Wait? ==> !j.st.Init?)
             && (th.success ==> j.st.Finished?)
             && (th.pc.InitJob? ==> j.base.Raw?)
             && (BaseReady(th.pc) ==> j.base.Ready?)
             && (th.pc.InitJob? || th.pc.Lookup? || th.pc.Create? || th.pc.Install? ==> JobDom(th.job.value) !in domPtr)
             && (th.pc.Discard? || th.pc.Push? ==> JobDom(th.job.value) in domPtr))
  }

  ghost predicate JobHolderOk(h: JobHolder, j: nat, threads: seq<Thread>, jobs: seq<Job>) {
    && j < |jobs|
    && match h
       case Submitter(t) => t < |threads| && threads[t].submit && HoldsJob(threads[t].pc) && threads[t].job == Some(j)
       case Sched(k) => k == j && !jobs[j].st.Init?
  }

  ghost predicate JobOk(j: nat, job: Job, threads: seq<Thread>, refs: R.Refs<JobHolder, nat>) {
    && (job.st.Queued? || job.st.Active? ==> Sched(j) in refs.ptr && refs.ptr[Sched(j)] == j)
    && (!job.st.Init? ==> (job.base.Ready? <==> Sched(j) in refs.ptr) && !job.base.Raw?)
    && (job.st.Init? && job.base.Ready? ==>
          && job.submitter < |threads| && threads[job.submitter].submit && BaseReady(threads[job.submitter].pc)
          && threads[job.submitter].job == Some(j))
  }

  ghost predicate JobRefs(threads: seq<Thread>, jobs: seq<Job>, refs: R.Refs<JobHolder, nat>,
                          domPtr: map<DomHolder, nat>, maps: set<nat>)
  {
    && (forall h <- refs.ptr :: JobHolderOk(h, refs.ptr[h], threads, jobs))
    && (forall j <- refs.kref :: j < |jobs|)
    && (forall t | 0 <= t < |threads| :: threads[t].submit ==> SubmitOk(t, threads[t], jobs, refs.ptr, domPtr))
    && (forall j | 0 <= j < |jobs| :: JobOk(j, jobs[j], threads, refs))
    && (forall t: nat :: t in maps <==> t < |threads| && threads[t].submit && HasMap(threads[t].pc))
  }

  // ---- cores and scheduler ----

  predicate InIrq(l: Lock) {
    l.IrqSignalled? || l.IrqReleased?
  }

  predicate SchedStopped(r: Reset) {
    r.Stopped? || r.Cleared? || r.Resumable?
  }

  ghost predicate CoreOk(c: nat, core: Core, jobs: seq<Job>) {
    && (core.slot.Some? ==>
          && core.slot.value < |jobs| && jobs[core.slot.value].st.Active? && jobs[core.slot.value].core == c
          && jobs[core.slot.value].fence == core.seqno)
    && (!core.run.Idle? ==>
          core.slot == Some(core.run.job) && core.seqno !in core.signalled && !SchedStopped(core.reset))
    && (!core.run.Idle? ==> core.run.job < |jobs| && jobs[core.run.job].next < jobs[core.run.job].tasks)
    && (core.flight.Some? && !InIrq(core.lock) ==>
          core.slot == core.flight && core.run.Idle? && core.seqno !in core.signalled)
    && (InIrq(core.lock) ==> core.flight.Some?)
    && (forall q <- core.signalled :: q <= core.seqno)
    && (core.reset.Cleared? || core.reset.Resumable? ==> core.flight.None?)
    && (!core.reset.Quiet? ==> core.reset.job < |jobs| && jobs[core.reset.job].core == c)
    && (core.lock.ResetEntered? || core.lock.ResetDetached? ==> core.reset.Stopped?)
    && (core.resetPending <==> core.reset.Pending? || core.reset.Stopped? || core.reset.Cleared?)
  }

  ghost predicate CoresOk(cores: seq<Core>, jobs: seq<Job>) {
    && (forall c | 0 <= c < |cores| :: CoreOk(c, cores[c], jobs))
    && (forall j | 0 <= j < |jobs| :: jobs[j].st.Active? ==>
          jobs[j].core < |cores| && cores[jobs[j].core].slot == Some(j))
    && (forall j | 0 <= j < |jobs| :: jobs[j].next <= jobs[j].tasks)
  }

  // ---- the attach-once cache ----

  ghost predicate AttachOk(c: nat, m: Mmu, doms: map<nat, Dom>, ptr: map<DomHolder, nat>, files: seq<FilePhase>) {
    if m.attached.None? then m.hw.None?
    else
      var a := m.attached.value;
      && a in doms && m.hw == Some(doms[a].gen)
      && var slot := Slot(doms[a].file, doms[a].idx);
         && slot in ptr && ptr[slot] == a
         && doms[a].file < |files|
         && (files[doms[a].file].Open? || (files[doms[a].file].Detaching? && files[doms[a].file].core <= c))
  }

  ghost predicate Attached(mmus: seq<Mmu>, doms: map<nat, Dom>, ptr: map<DomHolder, nat>, files: seq<FilePhase>) {
    forall c | 0 <= c < |mmus| :: AttachOk(c, mmus[c], doms, ptr, files)
  }

  // A core with a job in flight translates through that job's domain.
  ghost predicate FlightOk(core: Core, m: Mmu, ptr: map<DomHolder, nat>) {
    core.flight.Some? && !InIrq(core.lock) && !core.lock.ResetDetached? ==>
      JobDom(core.flight.value) in ptr && m.attached == Some(ptr[JobDom(core.flight.value)])
  }

  ghost predicate Flights(cores: seq<Core>, mmus: seq<Mmu>, ptr: map<DomHolder, nat>) {
    |cores| == |mmus| && forall c | 0 <= c < |cores| :: FlightOk(cores[c], mmus[c], ptr)
  }

  // ---- power ----

  // References a core accounts for: one for a job in flight, one for a run past pm_get.
  function Weight(c: Core): nat {
    (if c.flight.Some? && !c.lock.IrqReleased? && !c.lock.ResetEntered? && !c.lock.ResetDetached? then 1 else 0)
    + (if c.run.Powered? || c.run.Refused? then 1 else 0)
  }

  function Total(cores: seq<Core>): nat {
    if cores == [] then 0 else Weight(cores[0]) + Total(cores[1..])
  }

  lemma {:induction false} TotalUpdate(cores: seq<Core>, c: nat, core: Core)
    requires c < |cores|
    ensures Total(cores[c := core]) + Weight(cores[c]) == Total(cores) + Weight(core)
    ensures Total(cores) >= Weight(cores[c])
  {
    if c == 0 {
      assert cores[0 := core][1..] == cores[1..];
    } else {
      assert cores[c := core][1..] == cores[1..][c - 1 := core];
      TotalUpdate(cores[1..], c - 1, core);
    }
  }

  ghost predicate PowerOk(pm: P.Unit, cores: seq<Core>) {
    P.Held(pm) && pm.refs == Total(cores)
  }

  // ---- history ----

  function Launches(l: seq<Launch>, j: nat): nat {
    if l == [] then 0 else Launches(l[..|l| - 1], j) + if l[|l| - 1].job == j then 1 else 0
  }

  ghost predicate History(launches: seq<Launch>, jobs: seq<Job>) {
    && (forall j | 0 <= j < |jobs| :: Launches(launches, j) == jobs[j].next)
    && (forall k | 0 <= k < |launches| :: launches[k].job < |jobs|)
  }

  // Until a file drains, everything it was ever granted for an id is the pool's domain;
  // and all grants for one (file, id) are one domain, for ever.
  ghost predicate GrantsOk(grants: seq<Grant>, files: seq<FilePhase>, ptr: map<DomHolder, nat>, doms: map<nat, Dom>) {
    && (forall k | 0 <= k < |grants| :: GrantOk(grants[k], files, ptr, doms))
    && (forall k, m | 0 <= k < |grants| && 0 <= m < |grants| ::
          grants[k].file == grants[m].file && grants[k].idx == grants[m].idx ==> grants[k].gen == grants[m].gen)
  }

  ghost predicate GrantOk(g: Grant, files: seq<FilePhase>, ptr: map<DomHolder, nat>, doms: map<nat, Dom>) {
    && g.file < |files|
    && (Pooled(files[g.file]) ==>
          Slot(g.file, g.idx) in ptr && ptr[Slot(g.file, g.idx)] in doms && doms[ptr[Slot(g.file, g.idx)]].gen == g.gen)
  }

  // Everything about files, ioctl threads, domains, buffers and reference counts.
  ghost predicate IoInv(lo: nat, hi: nat, files: seq<FilePhase>, threads: seq<Thread>, bos: seq<Bo>, jobs: seq<Job>,
                        domRefs: R.Refs<DomHolder, nat>, doms: map<nat, Dom>, gen: nat,
                        jobRefs: R.Refs<JobHolder, nat>, boRefs: R.Refs<BoHolder, nat>, maps: set<nat>,
                        grants: seq<Grant>)
  {
    && R.Balanced(domRefs) && R.Balanced(jobRefs) && R.Balanced(boRefs)
    && domRefs.kref.Keys == doms.Keys
    && DomHolders(domRefs.ptr, files, threads, bos, jobs, jobRefs.kref)
    && DomLinks(domRefs.ptr, doms, files, threads, bos, jobs)
    && Gens(doms, gen)
    && Spaces(lo, hi, doms, domRefs.ptr, bos)
    && OnlyOpen(files, threads, bos, jobs)
    && BoRefs(threads, bos, boRefs)
    && JobRefs(threads, jobs, jobRefs, domRefs.ptr, maps)
    && GrantsOk(grants, files, domRefs.ptr, doms)
  }

  ghost predicate Io(s: State) {
    IoInv(s.lo, s.hi, s.files, s.threads, s.bos, s.jobs, s.domRefs, s.doms, s.gen, s.jobRefs, s.boRefs, s.maps,
          s.grants)
  }

  ghost predicate Inv(s: State) {
    && WellTyped(s)
    && s.policy == AttachOnce
    && Io(s)
    && CoresOk(s.cores, s.jobs)
    && Attached(s.mmus, s.doms, s.domRefs.ptr, s.files)
    && Flights(s.cores, s.mmus, s.domRefs.ptr)
    && PowerOk(s.pm, s.cores)
    && History(s.launches, s.jobs)
    && s.faults == {}
  }
}
