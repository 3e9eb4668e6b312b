/**
 MEM_CREATE, its unwinding, MEM_DESTROY and rocket_gem_bo_free keep the invariant.
 */
module MemProof {
  import opened Options
  import opened Machine
  import opened Invariants
  import opened IoProof
  import opened GetProof
  import R = Refs
  import A = AddressSpace

  // ---- one buffer's node changes in its domain ----

  lemma SpacesAt(lo: nat, hi: nat, doms: map<nat, Dom>, ptr: map<DomHolder, nat>, bos: seq<Bo>,
                 b: nat, sp: A.Space, bo: Bo)
    requires Spaces(lo, hi, doms, ptr, bos) && b < |bos| && BoDom(b) in ptr && ptr[BoDom(b)] in doms
    requires A.Ok(sp) && sp.lo == lo && sp.hi == hi
    requires sp.nodes - {b} == doms[ptr[BoDom(b)]].space.nodes - {b}
    requires b in sp.nodes <==> HasSpaceState(bo.st)
    requires b in sp.nodes ==> NodeOk(b, ptr[BoDom(b)], sp.nodes[b], ptr, bos[b := bo])
    ensures var a := ptr[BoDom(b)]; Spaces(lo, hi, doms[a := doms[a].(space := sp)], ptr, bos[b := bo])
  {
    hide A.Ok;
    var a := ptr[BoDom(b)];
    var doms2, bos2 := doms[a := doms[a].(space := sp)], bos[b := bo];
    forall d <- sp.nodes ensures d != b ==> d in doms[a].space.nodes && doms[a].space.nodes[d] == sp.nodes[d] {
      assert d != b ==> d in sp.nodes - {b} && (sp.nodes - {b})[d] == sp.nodes[d];
    }
    forall d <- doms[a].space.nodes ensures d != b ==> d in sp.nodes {
      assert d != b ==> d in doms[a].space.nodes - {b};
    }
    forall x <- doms2, d <- doms2[x].space.nodes ensures NodeOk(d, x, doms2[x].space.nodes[d], ptr, bos2) {
      if d != b || x != a {
        assert NodeOk(d, x, doms[x].space.nodes[d], ptr, bos);
      }
    }
  }

  lemma SpaceLinks(s: State, b: nat, sp: A.Space)
    requires DomLinks(s.domRefs.ptr, s.doms, s.files, s.threads, s.bos, s.jobs) && Gens(s.doms, s.gen) && HasSpace(s, b)
    ensures var doms := SetSpace(s, b, sp).doms;
      && DomLinks(s.domRefs.ptr, doms, s.files, s.threads, s.bos, s.jobs)
      && Gens(doms, s.gen)
  {
    var doms := SetSpace(s, b, sp).doms;
    forall h <- s.domRefs.ptr
      ensures LinkOk(h, s.domRefs.ptr[h], s.domRefs.ptr, doms, s.files, s.threads, s.bos, s.jobs)
    {
      assert LinkOk(h, s.domRefs.ptr[h], s.domRefs.ptr, s.doms, s.files, s.threads, s.bos, s.jobs);
    }
  }

  lemma SpaceFrames(s: State, b: nat, sp: A.Space)
    requires GrantsOk(s.grants, s.files, s.domRefs.ptr, s.doms) && Attached(s.mmus, s.doms, s.domRefs.ptr, s.files)
    requires HasSpace(s, b)
    ensures var doms := SetSpace(s, b, sp).doms;
      && GrantsOk(s.grants, s.files, s.domRefs.ptr, doms)
      && Attached(s.mmus, doms, s.domRefs.ptr, s.files)
  {
    var doms := SetSpace(s, b, sp).doms;
    forall c | 0 <= c < |s.mmus| ensures AttachOk(c, s.mmus[c], doms, s.domRefs.ptr, s.files) {
      assert AttachOk(c, s.mmus[c], s.doms, s.domRefs.ptr, s.files);
    }
  }

  lemma BoHolders(s: State, b: nat, bo: Bo)
    requires WellTyped(s) && OnlyOpen(s.files, s.threads, s.bos, s.jobs)
    requires DomHolders(s.domRefs.ptr, s.files, s.threads, s.bos, s.jobs, s.jobRefs.kref)
    requires b < |s.bos| && SameBo(s.bos[b], bo) && HasDom(bo.st) && HasDom(s.bos[b].st)
    ensures DomHolders(s.domRefs.ptr, s.files, s.threads, s.bos[b := bo], s.jobs, s.jobRefs.kref)
    ensures OnlyOpen(s.files, s.threads, s.bos[b := bo], s.jobs)
    ensures WellTyped(s.(bos := s.bos[b := bo]))
  {
  }

  lemma BoLinks(s: State, doms: map<nat, Dom>, b: nat, bo: Bo)
    requires DomLinks(s.domRefs.ptr, doms, s.files, s.threads, s.bos, s.jobs) && b < |s.bos| && SameBo(s.bos[b], bo)
    ensures DomLinks(s.domRefs.ptr, doms, s.files, s.threads, s.bos[b := bo], s.jobs)
  {
    var bos := s.bos[b := bo];
    forall h <- s.domRefs.ptr
      ensures LinkOk(h, s.domRefs.ptr[h], s.domRefs.ptr, doms, s.files, s.threads, bos, s.jobs)
    {
      assert LinkOk(h, s.domRefs.ptr[h], s.domRefs.ptr, doms, s.files, s.threads, s.bos, s.jobs);
    }
  }

  lemma SetSpaceTyped(s: State, b: nat, sp: A.Space, bo: Bo)
    requires b < |s.bos| && WellTyped(s.(bos := s.bos[b := bo])) && HasSpace(s, b)
    ensures WellTyped(SetSpace(s, b, sp).(bos := s.bos[b := bo]))
    ensures SetSpace(s, b, sp).domRefs.kref.Keys == SetSpace(s, b, sp).doms.Keys
  {
  }

  ghost predicate NodeChange(s: State, b: nat, sp: A.Space, bo: Bo) {
    && b < |s.bos| && HasSpace(s, b)
    && SameBo(s.bos[b], bo) && HasDom(bo.st) && HasDom(s.bos[b].st)
    && A.Ok(sp) && sp.lo == s.lo && sp.hi == s.hi && sp.nodes - {b} == SpaceOf(s, b).nodes - {b}
    && (b in sp.nodes <==> HasSpaceState(bo.st))
    && (b in sp.nodes ==> NodeOk(b, s.domRefs.ptr[BoDom(b)], sp.nodes[b], s.domRefs.ptr, s.bos[b := bo]))
  }

  // The node of a dying buffer changes.
  lemma NodeKeeps(s: State, b: nat, sp: A.Space, bo: Bo)
    requires Inv(s) && NodeChange(s, b, sp, bo) && BoRefs(s.threads, s.bos[b := bo], s.boRefs)
    ensures Inv(SetSpace(s, b, sp).(bos := s.bos[b := bo]))
  {
    hide R.Balanced, DomHolders, DomLinks, Gens, Spaces, OnlyOpen, BoRefs, JobRefs, CoresOk, Attached, Flights, PowerOk,
      History, GrantsOk, WellTyped, A.Ok;
    SpaceLinks(s, b, sp);
    SpaceFrames(s, b, sp);
    BoHolders(s, b, bo);
    BoLinks(s, SetSpace(s, b, sp).doms, b, bo);
    SpacesAt(s.lo, s.hi, s.doms, s.domRefs.ptr, s.bos, b, sp, bo);
    SetSpaceTyped(s, b, sp, bo);
  }

  // The node of a buffer under construction changes as its creating thread moves on.
  lemma MakerNodeKeeps(s: State, t: nat, th: Thread, sp: A.Space, bo: Bo)
    requires Inv(s) && t < |s.threads| && !th.submit && SameThread(s.threads[t], th) && ThreadTyped(s, th)
    requires !s.threads[t].pc.Done? && !s.threads[t].pc.Finish? && !th.pc.Done? && !th.pc.Finish?
    requires !HasCand(th.pc) && !HasCand(s.threads[t].pc) && th.job == s.threads[t].job
    requires NodeChange(s, th.bo, sp, bo) && bo.published == s.bos[th.bo].published && bo.st == CreateState(th.pc)
    requires CreatePc(th.pc) && th.success == s.threads[t].success
    ensures Inv(SetSpace(s, th.bo, sp).(bos := s.bos[th.bo := bo], threads := s.threads[t := th]))
  {
    hide R.Balanced, DomHolders, DomLinks, Gens, Spaces, OnlyOpen, BoRefs, JobRefs, CoresOk, Attached, Flights, PowerOk,
      History, GrantsOk, WellTyped, A.Ok;
    var b := th.bo;
    SelfOk(s, t);
    BoRefsMaker(s.threads, s.bos, s.boRefs, t, th, bo);
    JobRefsThread(s.threads, s.jobs, s.jobRefs, s.domRefs.ptr, s.maps, t, th);
    ThreadIds(s, t, th);
    var s1 := SetThread(s, t, th);
    SpaceLinks(s1, b, sp);
    SpaceFrames(s1, b, sp);
    BoHolders(s1, b, bo);
    BoLinks(s1, SetSpace(s1, b, sp).doms, b, bo);
    SpacesAt(s.lo, s.hi, s.doms, s.domRefs.ptr, s.bos, b, sp, bo);
    SetSpaceTyped(s1, b, sp, bo);
  }

  // ---- the steps ----

  // A buffer with a node sits in its domain's allocator.
  lemma NodeAt(s: State, b: nat)
    requires Inv(s) && b < |s.bos| && HasDom(s.bos[b].st)
    ensures HasSpace(s, b) && A.Ok(SpaceOf(s, b)) && SpaceOf(s, b).lo == s.lo && SpaceOf(s, b).hi == s.hi
    ensures b in SpaceOf(s, b).nodes <==> HasSpaceState(s.bos[b].st)
    ensures b in SpaceOf(s, b).nodes ==>
      NodeOk(b, s.domRefs.ptr[BoDom(b)], SpaceOf(s, b).nodes[b], s.domRefs.ptr, s.bos)
  {
    hide R.Balanced, Gens, OnlyOpen, BoRefs, JobRefs, CoresOk, Attached, Flights, PowerOk, History, GrantsOk, WellTyped,
      A.Ok;
    assert LinkOk(BoDom(b), s.domRefs.ptr[BoDom(b)], s.domRefs.ptr, s.doms, s.files, s.threads, s.bos, s.jobs);
  }

  lemma InsertKeeps(s: State, t: nat, ok: bool, start: nat)
    requires Inv(s) && t < |s.threads| && s.threads[t].pc.Insert? && !s.threads[t].submit && CanAdvance(s, t, ok, start)
    ensures Inv(InsertStep(s, t, ok, start))
  {
    hide IoInv, CoresOk, Attached, Flights, PowerOk, History, WellTyped, A.Ok;
    SelfOk(s, t);
    var b := s.threads[t].bo;
    NodeAt(s, b);
    if ok {
      A.InsertOk(SpaceOf(s, b), b, start, s.bos[b].size);
      MakerNodeKeeps(s, t, s.threads[t].(pc := MapIova), A.Insert(SpaceOf(s, b), b, start, s.bos[b].size),
                     s.bos[b].(st := HasNode, start := start));
    } else {
      GotoKeeps(s, t, UndoDomain);
    }
  }

  lemma MapKeeps(s: State, t: nat, ok: bool)
    requires Inv(s) && t < |s.threads| && s.threads[t].pc.MapIova? && !s.threads[t].submit
    ensures Inv(MapStep(s, t, ok))
  {
    hide IoInv, CoresOk, Attached, Flights, PowerOk, History, WellTyped, A.Ok;
    SelfOk(s, t);
    var b := s.threads[t].bo;
    NodeAt(s, b);
    if ok {
      A.MapOk(SpaceOf(s, b), b);
      MakerNodeKeeps(s, t, s.threads[t].(pc := MakeHandle), A.Map(SpaceOf(s, b), b),
                     s.bos[b].(st := Mapped, size := A.Pages(s.bos[b].size) * A.PAGE));
    } else {
      GotoKeeps(s, t, UndoInsert);
    }
  }

  lemma UndoMapKeeps(s: State, t: nat)
    requires Inv(s) && t < |s.threads| && s.threads[t].pc.UndoMap? && !s.threads[t].submit
    ensures Inv(UndoMapStep(s, t))
  {
    hide IoInv, CoresOk, Attached, Flights, PowerOk, History, WellTyped, A.Ok;
    SelfOk(s, t);
    var b := s.threads[t].bo;
    NodeAt(s, b);
    A.UnmapOk(SpaceOf(s, b), b);
    assert s.bos[b].size == A.Pages(SpaceOf(s, b).nodes[b].size) * A.PAGE;
    assert UnmapBo(s, b).faults == {};
    MakerNodeKeeps(s, t, s.threads[t].(pc := UndoInsert), A.Unmap(SpaceOf(s, b), b, s.bos[b].size),
                   s.bos[b].(st := HasNode));
  }

  lemma UndoInsertKeeps(s: State, t: nat)
    requires Inv(s) && t < |s.threads| && s.threads[t].pc.UndoInsert? && !s.threads[t].submit
    ensures Inv(UndoInsertStep(s, t))
  {
    hide IoInv, CoresOk, Attached, Flights, PowerOk, History, WellTyped, A.Ok;
    SelfOk(s, t);
    var b := s.threads[t].bo;
    NodeAt(s, b);
    A.RemoveOk(SpaceOf(s, b), b);
    MakerNodeKeeps(s, t, s.threads[t].(pc := UndoDomain), A.Remove(SpaceOf(s, b), b), s.bos[b].(st := HasDomain));
  }

  // A dying buffer changes; nobody holds it.
  lemma BoRefsDying(threads: seq<Thread>, bos: seq<Bo>, refs: R.Refs<BoHolder, nat>, b: nat, bo: Bo)
    requires BoRefs(threads, bos, refs) && R.Balanced(refs) && b < |bos| && SameBo(bos[b], bo)
    requires b !in refs.kref && bos[b].published && bo.published && !bo.st.Fresh?
    ensures BoRefs(threads, bos[b := bo], refs)
  {
    var bos2 := bos[b := bo];
    forall h <- refs.ptr ensures BoHolderOk(h, refs.ptr[h], threads, bos2) {
      assert BoHolderOk(h, refs.ptr[h], threads, bos);
    }
    forall u | 0 <= u < |threads| && !threads[u].submit ensures MakerOk(u, threads[u], bos2, refs.ptr) {
      assert MakerOk(u, threads[u], bos, refs.ptr);
    }
    forall d | 0 <= d < |bos2| ensures BoOk(d, bos2[d], threads, refs.kref) {
      assert BoOk(d, bos[d], threads, refs.kref);
    }
  }

  lemma BoUnmapKeeps(s: State, b: nat)
    requires Inv(s) && Dying(s, b, Mapped)
    ensures Inv(UnmapBo(s, b))
  {
    hide R.Balanced, DomHolders, DomLinks, Gens, Spaces, OnlyOpen, BoRefs, JobRefs, CoresOk, Attached, Flights, PowerOk,
      History, GrantsOk, WellTyped, A.Ok;
    NodeAt(s, b);
    A.UnmapOk(SpaceOf(s, b), b);
    assert s.bos[b].size == A.Pages(SpaceOf(s, b).nodes[b].size) * A.PAGE;
    assert UnmapBo(s, b).faults == {};
    var bo := s.bos[b].(st := HasNode);
    BoRefsDying(s.threads, s.bos, s.boRefs, b, bo);
    NodeKeeps(s, b, A.Unmap(SpaceOf(s, b), b, s.bos[b].size), bo);
  }

  lemma BoRemoveKeeps(s: State, b: nat)
    requires Inv(s) && Dying(s, b, HasNode)
    ensures Inv(RemoveNode(s, b))
  {
    hide R.Balanced, DomHolders, DomLinks, Gens, Spaces, OnlyOpen, BoRefs, JobRefs, CoresOk, Attached, Flights, PowerOk,
      History, GrantsOk, WellTyped, A.Ok;
    NodeAt(s, b);
    A.RemoveOk(SpaceOf(s, b), b);
    var bo := s.bos[b].(st := HasDomain);
    BoRefsDying(s.threads, s.bos, s.boRefs, b, bo);
    NodeKeeps(s, b, A.Remove(SpaceOf(s, b), b), bo);
  }

  // ---- calls begin ----

  // A new ioctl thread, and for MEM_CREATE a new buffer.
  ghost predicate Begins(s: State, s': State, th: Thread) {
    && s'.threads == s.threads + [th] && ThreadTyped(s', th)
    && InFile(s.files, th.file) && th.job.None? && !th.pc.Done? && !HasCand(th.pc)
    && (s'.bos == s.bos || (|s'.bos| == |s.bos| + 1 && s'.bos[..|s.bos|] == s.bos && s'.bos[|s.bos|].st.Fresh?
          && s'.bos[|s.bos|].file == th.file && s'.bos[|s.bos|].idx == th.idx))
    && s' == s.(threads := s'.threads, bos := s'.bos, boRefs := s'.boRefs)
  }

  lemma BeginIds(s: State, s': State, th: Thread)
    requires Inv(s) && Begins(s, s', th)
    ensures WellTyped(s')
    ensures DomHolders(s'.domRefs.ptr, s'.files, s'.threads, s'.bos, s'.jobs, s'.jobRefs.kref)
    ensures OnlyOpen(s'.files, s'.threads, s'.bos, s'.jobs)
  {
    hide R.Balanced, DomLinks, Gens, Spaces, BoRefs, JobRefs, CoresOk, Attached, Flights, PowerOk, History, GrantsOk;
  }

  lemma BeginLinks(s: State, s': State, th: Thread)
    requires Inv(s) && Begins(s, s', th)
    ensures DomLinks(s'.domRefs.ptr, s'.doms, s'.files, s'.threads, s'.bos, s'.jobs)
  {
    hide R.Balanced, DomHolders, Gens, Spaces, OnlyOpen, BoRefs, JobRefs, CoresOk, Attached, Flights, PowerOk, History,
      GrantsOk, WellTyped;
    forall h <- s'.domRefs.ptr
      ensures LinkOk(h, s'.domRefs.ptr[h], s'.domRefs.ptr, s'.doms, s'.files, s'.threads, s'.bos, s'.jobs)
    {
      assert LinkOk(h, s.domRefs.ptr[h], s.domRefs.ptr, s.doms, s.files, s.threads, s.bos, s.jobs);
    }
  }

  lemma BeginJobRefs(s: State, s': State, th: Thread)
    requires JobRefs(s.threads, s.jobs, s.jobRefs, s.domRefs.ptr, s.maps) && Begins(s, s', th)
    requires th.submit ==> th.pc.Vmap? && !th.success && th.counter == 0
    ensures JobRefs(s'.threads, s.jobs, s.jobRefs, s.domRefs.ptr, s.maps)
  {
    forall h <- s.jobRefs.ptr ensures JobHolderOk(h, s.jobRefs.ptr[h], s'.threads, s.jobs) {
      assert JobHolderOk(h, s.jobRefs.ptr[h], s.threads, s.jobs);
    }
    forall j | 0 <= j < |s.jobs| ensures JobOk(j, s.jobs[j], s'.threads, s.jobRefs) {
      assert JobOk(j, s.jobs[j], s.threads, s.jobRefs);
    }
  }

  lemma BeginSpaces(s: State, s': State, th: Thread)
    requires Inv(s) && Begins(s, s', th)
    ensures Spaces(s.lo, s.hi, s.doms, s.domRefs.ptr, s'.bos)
  {
    hide R.Balanced, DomHolders, DomLinks, Gens, Spaces, OnlyOpen, BoRefs, JobRefs, CoresOk, Attached, Flights, PowerOk,
      History, GrantsOk, WellTyped;
    SpacesGrow(s.lo, s.hi, s.doms, s.domRefs.ptr, s.bos, s.domRefs.ptr, s'.bos);
  }

  lemma BeginKeeps(s: State, s': State, th: Thread)
    requires Inv(s) && Begins(s, s', th)
    requires th.submit ==> th.pc.Vmap? && !th.success && th.counter == 0
    requires BoRefs(s'.threads, s'.bos, s'.boRefs) && R.Balanced(s'.boRefs)
    ensures Inv(s')
  {
    hide R.Balanced, DomHolders, DomLinks, Gens, Spaces, OnlyOpen, BoRefs, JobRefs, CoresOk, Attached, Flights, PowerOk,
      History, GrantsOk, WellTyped;
    BeginIds(s, s', th);
    BeginLinks(s, s', th);
    BeginJobRefs(s, s', th);
    BeginSpaces(s, s', th);
  }

  lemma MemBeginRefs(threads: seq<Thread>, bos: seq<Bo>, refs: R.Refs<BoHolder, nat>, th: Thread, bo: Bo)
    requires BoRefs(threads, bos, refs) && !th.submit && th.pc.Lookup? && th.job.None? && th.bo == |bos|
    requires bo.maker == |threads| && bo.file == th.file && bo.idx == th.idx && bo.st.Fresh? && !bo.published
    requires !th.success
    ensures Maker(|threads|) !in refs.ptr && |bos| !in refs.kref
    ensures BoRefs(threads + [th], bos + [bo], R.New(refs, Maker(|threads|), |bos|))
  {
    var t := |threads|;
    var threads2, bos2, refs2 := threads + [th], bos + [bo], R.New(refs, Maker(t), |bos|);
    forall h <- refs2.ptr ensures BoHolderOk(h, refs2.ptr[h], threads2, bos2) {
      if h != Maker(t) {
        assert BoHolderOk(h, refs.ptr[h], threads, bos);
      }
    }
    assert Maker(t) in refs.ptr ==> BoHolderOk(Maker(t), refs.ptr[Maker(t)], threads, bos);
    forall u | 0 <= u < |threads2| && !threads2[u].submit ensures MakerOk(u, threads2[u], bos2, refs2.ptr) {
      if u < t {
        assert MakerOk(u, threads[u], bos, refs.ptr);
      }
    }
    forall d | 0 <= d < |bos2| ensures BoOk(d, bos2[d], threads2, refs2.kref) {
      if d < |bos| {
        assert BoOk(d, bos[d], threads, refs.kref);
      }
    }
  }

  lemma CallMemCreateKeeps(s: State, f: nat, id: int, size: nat)
    requires Inv(s) && f < |s.files| && s.files[f].Open?
    ensures Inv(CallMemCreate(s, f, id, size))
  {
    hide R.Balanced, DomHolders, DomLinks, Gens, Spaces, OnlyOpen, BoRefs, JobRefs, CoresOk, Attached, Flights, PowerOk,
      History, GrantsOk;
    var s' := CallMemCreate(s, f, id, size);
    var th, bo := s'.threads[|s.threads|], s'.bos[|s.bos|];
    MemBeginRefs(s.threads, s.bos, s.boRefs, th, bo);
    R.NewBalanced(s.boRefs, Maker(|s.threads|), |s.bos|);
    BeginKeeps(s, s', th);
  }

  lemma TaskBeginRefs(threads: seq<Thread>, bos: seq<Bo>, refs: R.Refs<BoHolder, nat>, th: Thread)
    requires BoRefs(threads, bos, refs) && th.submit && th.bo < |bos| && th.bo in refs.kref && bos[th.bo].published
    requires !th.pc.Done?
    ensures Task(|threads|) !in refs.ptr
    ensures BoRefs(threads + [th], bos, R.Get(refs, Task(|threads|), th.bo))
  {
    var t := |threads|;
    var threads2, refs2 := threads + [th], R.Get(refs, Task(t), th.bo);
    forall h <- refs2.ptr ensures BoHolderOk(h, refs2.ptr[h], threads2, bos) {
      if h != Task(t) {
        assert BoHolderOk(h, refs.ptr[h], threads, bos);
      }
    }
    assert Task(t) in refs.ptr ==> BoHolderOk(Task(t), refs.ptr[Task(t)], threads, bos);
    forall u | 0 <= u < |threads2| && !threads2[u].submit ensures MakerOk(u, threads2[u], bos, refs2.ptr) {
      assert MakerOk(u, threads[u], bos, refs.ptr);
    }
    forall d | 0 <= d < |bos| ensures BoOk(d, bos[d], threads2, refs2.kref) {
      assert BoOk(d, bos[d], threads, refs.kref);
    }
  }

  lemma CallSubmitKeeps(s: State, f: nat, id: int, core: nat, b: nat, tasks: nat, number: nat)
    requires Inv(s) && f < |s.files| && s.files[f].Open? && core < |s.cores|
    requires b < |s.bos| && b in s.boRefs.kref && s.bos[b].published
    ensures Inv(CallSubmit(s, f, id, core, b, tasks, number))
  {
    hide R.Balanced, DomHolders, DomLinks, Gens, Spaces, OnlyOpen, BoRefs, JobRefs, CoresOk, Attached, Flights, PowerOk,
      History, GrantsOk;
    var s' := CallSubmit(s, f, id, core, b, tasks, number);
    var th := s'.threads[|s.threads|];
    TaskBeginRefs(s.threads, s.bos, s.boRefs, th);
    R.GetBalanced(s.boRefs, Task(|s.threads|), b);
    BeginKeeps(s, s', th);
  }

  // ---- buffer references change hands ----

  lemma HandleRefs(threads: seq<Thread>, bos: seq<Bo>, refs: R.Refs<BoHolder, nat>, t: nat)
    requires BoRefs(threads, bos, refs) && R.Balanced(refs)
    requires t < |threads| && !threads[t].submit && threads[t].pc.MakeHandle?
    ensures var th := threads[t];
      && th.bo < |bos| && th.bo in refs.kref && Handle(th.bo) !in refs.ptr
      && BoRefs(threads[t := th.(pc := Finish)], bos[th.bo := bos[th.bo].(published := true)],
                R.Get(refs, Handle(th.bo), th.bo))
  {
    hide R.Balanced;
    MakerLive(threads, bos, refs, t);
    var th := threads[t];
    var b := th.bo;
    assert MakerOk(t, th, bos, refs.ptr);
    assert Handle(b) in refs.ptr ==> BoHolderOk(Handle(b), refs.ptr[Handle(b)], threads, bos);
    var threads2, bos2, refs2 :=
      threads[t := th.(pc := Finish)], bos[b := bos[b].(published := true)], R.Get(refs, Handle(b), b);
    forall h <- refs2.ptr ensures BoHolderOk(h, refs2.ptr[h], threads2, bos2) {
      if h != Handle(b) {
        assert BoHolderOk(h, refs.ptr[h], threads, bos);
      }
    }
    forall u | 0 <= u < |threads2| && !threads2[u].submit ensures MakerOk(u, threads2[u], bos2, refs2.ptr) {
      assert MakerOk(u, threads[u], bos, refs.ptr);
    }
    forall d | 0 <= d < |bos2| ensures BoOk(d, bos2[d], threads2, refs2.kref) {
      assert BoOk(d, bos[d], threads, refs.kref);
    }
  }

  lemma MakerLive(threads: seq<Thread>, bos: seq<Bo>, refs: R.Refs<BoHolder, nat>, t: nat)
    requires BoRefs(threads, bos, refs) && R.Balanced(refs)
    requires t < |threads| && !threads[t].submit && !threads[t].pc.Done?
    ensures threads[t].bo in refs.kref && Maker(t) in refs.ptr && refs.ptr[Maker(t)] == threads[t].bo
  {
    assert MakerOk(t, threads[t], bos, refs.ptr);
  }

  // A published buffer loses one holder; the holding thread, if any, is done.
  ghost predicate Drops(threads: seq<Thread>, bos: seq<Bo>, refs: R.Refs<BoHolder, nat>, h: BoHolder,
                        threads2: seq<Thread>)
  {
    && h in refs.ptr && |threads2| == |threads| && refs.ptr[h] < |bos| && bos[refs.ptr[h]].published
    && (forall u | 0 <= u < |threads| ::
          || (threads2[u] == threads[u] && h != Maker(u) && h != Task(u))
          || (SameThread(threads[u], threads2[u]) && threads2[u].pc.Done? && threads2[u].job == threads[u].job
              && (h == Maker(u) || h == Task(u)) && (!threads[u].submit ==> threads2[u].success)))
  }

  lemma DropRefs(threads: seq<Thread>, bos: seq<Bo>, refs: R.Refs<BoHolder, nat>, h: BoHolder, threads2: seq<Thread>)
    requires BoRefs(threads, bos, refs) && R.Balanced(refs) && Drops(threads, bos, refs, h, threads2)
    ensures refs.ptr[h] in refs.kref
    ensures BoRefs(threads2, bos, R.Put(refs, h))
  {
    R.HolderLive(refs, h);
    hide R.Balanced;
    DropHolders(threads, bos, refs, h, threads2);
    DropMakers(threads, bos, refs, h, threads2);
    hide BoHolderOk, MakerOk;
    forall d | 0 <= d < |bos| ensures BoOk(d, bos[d], threads2, R.Put(refs, h).kref) {
      assert BoOk(d, bos[d], threads, refs.kref);
    }
  }

  lemma DropHolders(threads: seq<Thread>, bos: seq<Bo>, refs: R.Refs<BoHolder, nat>, h: BoHolder, threads2: seq<Thread>)
    requires BoRefs(threads, bos, refs) && Drops(threads, bos, refs, h, threads2)
    ensures forall g <- refs.ptr - {h} :: BoHolderOk(g, refs.ptr[g], threads2, bos)
    ensures forall t | 0 <= t < |threads2| :: threads2[t].submit && !threads2[t].pc.Done? ==>
      Task(t) in refs.ptr - {h} && refs.ptr[Task(t)] == threads2[t].bo
  {
    hide BoOk, MakerOk;
    forall g <- refs.ptr - {h} ensures BoHolderOk(g, refs.ptr[g], threads2, bos) {
      assert BoHolderOk(g, refs.ptr[g], threads, bos);
    }
  }

  lemma DropMakers(threads: seq<Thread>, bos: seq<Bo>, refs: R.Refs<BoHolder, nat>, h: BoHolder, threads2: seq<Thread>)
    requires BoRefs(threads, bos, refs) && Drops(threads, bos, refs, h, threads2)
    ensures forall u | 0 <= u < |threads2| :: !threads2[u].submit ==> MakerOk(u, threads2[u], bos, refs.ptr - {h})
  {
    hide BoOk;
    assert BoHolderOk(h, refs.ptr[h], threads, bos);
    forall u | 0 <= u < |threads2| && !threads2[u].submit ensures MakerOk(u, threads2[u], bos, refs.ptr - {h}) {
      assert MakerOk(u, threads[u], bos, refs.ptr);
      MakerAfter(u, threads[u], threads2[u], bos, refs.ptr, h);
    }
  }

  lemma MakerAfter(u: nat, a: Thread, b: Thread, bos: seq<Bo>, ptr: map<BoHolder, nat>, h: BoHolder)
    requires MakerOk(u, a, bos, ptr) && h in ptr && ptr[h] < |bos| && bos[ptr[h]].published
    requires (b == a && h != Maker(u)) || (SameThread(a, b) && b.pc.Done? && b.job == a.job && b.success && !a.pc.Done?)
    requires h == Maker(u) ==> ptr[h] == a.bo
    requires b != a ==> h == Maker(u)
    ensures MakerOk(u, b, bos, ptr - {h})
  {
  }

  lemma HandleKeeps(s: State, t: nat, ok: bool)
    requires Inv(s) && t < |s.threads| && s.threads[t].pc.MakeHandle? && !s.threads[t].submit
    ensures Inv(HandleStep(s, t, ok))
  {
    hide R.Balanced, DomHolders, DomLinks, Gens, Spaces, OnlyOpen, BoRefs, JobRefs, CoresOk, Attached, Flights, PowerOk,
      History, GrantsOk, WellTyped;
    SelfOk(s, t);
    if ok {
      var th := s.threads[t].(pc := Finish);
      var b := th.bo;
      var bo := s.bos[b].(published := true);
      HandleRefs(s.threads, s.bos, s.boRefs, t);
      R.GetBalanced(s.boRefs, Handle(b), b);
      ThreadIds(s, t, th);
      JobRefsThread(s.threads, s.jobs, s.jobRefs, s.domRefs.ptr, s.maps, t, th);
      var s1 := SetThread(s, t, th);
      BoHolders(s1, b, bo);
      BoLinks(s1, s1.doms, b, bo);
      SpacesSame(s, b, bo);
      TypedFrame(s1.(bos := s1.bos[b := bo]), HandleStep(s, t, ok));
    } else {
      GotoKeeps(s, t, UndoMap);
    }
  }

  // Reference tables of jobs and buffers play no part in typing.
  lemma TypedFrame(s: State, s': State)
    requires WellTyped(s) && s' == s.(boRefs := s'.boRefs, jobRefs := s'.jobRefs, maps := s'.maps)
    ensures WellTyped(s')
  {
  }

  lemma SpacesSame(s: State, b: nat, bo: Bo)
    requires Spaces(s.lo, s.hi, s.doms, s.domRefs.ptr, s.bos) && b < |s.bos|
    requires bo.st == s.bos[b].st && bo.size == s.bos[b].size && bo.start == s.bos[b].start
    ensures Spaces(s.lo, s.hi, s.doms, s.domRefs.ptr, s.bos[b := bo])
  {
    hide A.Ok;
  }

  lemma DropHandleKeeps(s: State, b: nat)
    requires Inv(s) && Handle(b) in s.boRefs.ptr
    ensures Inv(DropBo(s, Handle(b)))
  {
    hide R.Balanced, DomHolders, DomLinks, Gens, Spaces, OnlyOpen, BoRefs, JobRefs, CoresOk, Attached, Flights, PowerOk,
      History, GrantsOk, WellTyped;
    HandleOk(s.threads, s.bos, s.boRefs, b);
    R.PutBalanced(s.boRefs, Handle(b));
    DropRefs(s.threads, s.bos, s.boRefs, Handle(b), s.threads);
    TypedFrame(s, DropBo(s, Handle(b)));
  }

  lemma HandleOk(threads: seq<Thread>, bos: seq<Bo>, refs: R.Refs<BoHolder, nat>, b: nat)
    requires BoRefs(threads, bos, refs) && Handle(b) in refs.ptr
    ensures refs.ptr[Handle(b)] == b < |bos| && bos[b].published
  {
    assert BoHolderOk(Handle(b), refs.ptr[Handle(b)], threads, bos);
  }

  // An ioctl thread returns, dropping its last reference to a published buffer.
  lemma RetireKeeps(s: State, t: nat, h: BoHolder, th: Thread)
    requires Inv(s) && t < |s.threads| && h == (if th.submit then Task(t) else Maker(t))
    requires SameThread(s.threads[t], th) && th.job == s.threads[t].job && th.pc.Done?
    requires if th.submit then s.threads[t].pc.PutTask? && th.success == s.threads[t].success
                               && th.counter == s.threads[t].counter && th.number == s.threads[t].number
             else s.threads[t].pc.Finish? && th.success
    ensures Inv(DropBo(s, h).(threads := s.threads[t := th]))
  {
    hide R.Balanced, DomHolders, DomLinks, Gens, Spaces, OnlyOpen, BoRefs, JobRefs, CoresOk, Attached, Flights, PowerOk,
      History, GrantsOk, WellTyped;
    SelfOk(s, t);
    HolderOk(s, t, h);
    R.PutBalanced(s.boRefs, h);
    DropRefs(s.threads, s.bos, s.boRefs, h, s.threads[t := th]);
    ThreadIds(s, t, th);
    JobRefsThread(s.threads, s.jobs, s.jobRefs, s.domRefs.ptr, s.maps, t, th);
    TypedFrame(SetThread(s, t, th), DropBo(s, h).(threads := s.threads[t := th]));
  }

  lemma HolderOk(s: State, t: nat, h: BoHolder)
    requires Inv(s) && t < |s.threads| && h == (if s.threads[t].submit then Task(t) else Maker(t))
    requires if s.threads[t].submit then !s.threads[t].pc.Done? else s.threads[t].pc.Finish?
    ensures h in s.boRefs.ptr && s.boRefs.ptr[h] == s.threads[t].bo < |s.bos| && s.bos[s.threads[t].bo].published
    ensures s.threads[t].bo in s.boRefs.kref
  {
    hide R.Balanced, DomHolders, DomLinks, Gens, Spaces, OnlyOpen, JobRefs, CoresOk, Attached, Flights, PowerOk,
      History, GrantsOk, WellTyped;
    SelfOk(s, t);
    assert BoHolderOk(h, s.boRefs.ptr[h], s.threads, s.bos);
    R.HolderLive(s.boRefs, h);
  }

  lemma FinishKeeps(s: State, t: nat)
    requires Inv(s) && t < |s.threads| && s.threads[t].pc.Finish? && !s.threads[t].submit
    ensures Inv(FinishStep(s, t))
  {
    hide IoInv, CoresOk, Attached, Flights, PowerOk, History, WellTyped;
    HolderOk(s, t, Maker(t));
    RetireKeeps(s, t, Maker(t), s.threads[t].(pc := Done, success := true));
  }

  lemma PutTaskKeeps(s: State, t: nat)
    requires Inv(s) && t < |s.threads| && s.threads[t].pc.PutTask? && s.threads[t].submit
    ensures Inv(PutTaskStep(s, t))
  {
    hide IoInv, CoresOk, Attached, Flights, PowerOk, History, WellTyped;
    HolderOk(s, t, Task(t));
    RetireKeeps(s, t, Task(t), s.threads[t].(pc := Done));
  }

  // ---- giving up a buffer ----

  // A buffer whose node is gone lets go of its domain.
  lemma ReleaseHolders(s: State, b: nat, bo: Bo)
    requires Inv(s) && b < |s.bos| && s.bos[b].st.HasDomain? && SameBo(s.bos[b], bo) && (bo.st.Fresh? || bo.st.Freed?)
    ensures BoDom(b) in s.domRefs.ptr
    ensures DomHolders(s.domRefs.ptr - {BoDom(b)}, s.files, s.threads, s.bos[b := bo], s.jobs, s.jobRefs.kref)
    ensures OnlyOpen(s.files, s.threads, s.bos[b := bo], s.jobs)
  {
    hide R.Balanced, DomLinks, Gens, Spaces, BoRefs, JobRefs, CoresOk, Attached, Flights, PowerOk, History, GrantsOk,
      WellTyped;
  }

  lemma ReleaseTyped(s: State, s1: State, b: nat, bo: Bo)
    requires WellTyped(s) && b < |s.bos| && SameBo(s.bos[b], bo) && Dropped(s, s1, BoDom(b))
    ensures WellTyped(s1.(bos := s.bos[b := bo]))
  {
    hide R.Balanced;
  }

  lemma ReleaseGroups(s: State, b: nat, bo: Bo)
    requires Inv(s) && b < |s.bos| && s.bos[b].st.HasDomain? && SameBo(s.bos[b], bo) && (bo.st.Fresh? || bo.st.Freed?)
    ensures var s1 := DropDom(s, BoDom(b));
      && Dropped(s, s1, BoDom(b))
      && WellTyped(s1.(bos := s.bos[b := bo]))
      && DomHolders(s1.domRefs.ptr, s.files, s.threads, s.bos[b := bo], s.jobs, s.jobRefs.kref)
      && OnlyOpen(s.files, s.threads, s.bos[b := bo], s.jobs)
      && DomLinks(s1.domRefs.ptr, s1.doms, s.files, s.threads, s.bos[b := bo], s.jobs)
      && Gens(s1.doms, s.gen)
      && Spaces(s.lo, s.hi, s1.doms, s1.domRefs.ptr, s.bos[b := bo])
      && GrantsOk(s.grants, s.files, s1.domRefs.ptr, s1.doms)
      && JobRefs(s.threads, s.jobs, s.jobRefs, s1.domRefs.ptr, s.maps)
      && Attached(s.mmus, s1.doms, s1.domRefs.ptr, s.files)
      && Flights(s.cores, s.mmus, s1.domRefs.ptr)
  {
    hide R.Balanced, DomHolders, DomLinks, Gens, Spaces, OnlyOpen, BoRefs, JobRefs, CoresOk, Attached, Flights, PowerOk,
      History, GrantsOk, WellTyped;
    ReleaseHolders(s, b, bo);
    var s1 := DropDom(s, BoDom(b));
    DropDomOk(s, BoDom(b));
    DroppedLinks(s, s1, BoDom(b));
    BoLinks(s1, s1.doms, b, bo);
    DroppedSpaces(s, s1, BoDom(b));
    SpacesGrow(s.lo, s.hi, s1.doms, s1.domRefs.ptr, s.bos, s1.domRefs.ptr, s.bos[b := bo]);
    DroppedRest(s, s1, BoDom(b));
    DroppedFlights(s, s1, BoDom(b));
    JobRefsPtr(s, s1.domRefs.ptr);
    ReleaseTyped(s, s1, b, bo);
  }

  lemma FreeDomainKeeps(s: State, b: nat)
    requires Inv(s) && Dying(s, b, HasDomain)
    ensures Inv(FreeDomain(s, b))
  {
    hide R.Balanced, DomHolders, DomLinks, Gens, Spaces, OnlyOpen, BoRefs, JobRefs, CoresOk, Attached, Flights, PowerOk,
      History, GrantsOk, WellTyped;
    var bo := s.bos[b].(st := Freed);
    ReleaseGroups(s, b, bo);
    BoRefsDying(s.threads, s.bos, s.boRefs, b, bo);
  }

  lemma UndoDomainKeeps(s: State, t: nat)
    requires Inv(s) && t < |s.threads| && s.threads[t].pc.UndoDomain? && !s.threads[t].submit
    ensures Inv(UndoDomainStep(s, t))
  {
    hide R.Balanced, DomHolders, DomLinks, Gens, Spaces, OnlyOpen, BoRefs, JobRefs, CoresOk, Attached, Flights, PowerOk,
      History, GrantsOk, WellTyped;
    SelfOk(s, t);
    var b := s.threads[t].bo;
    var bo := s.bos[b].(st := Fresh);
    var th := s.threads[t].(pc := UndoAlloc);
    ReleaseGroups(s, b, bo);
    BoRefsMaker(s.threads, s.bos, s.boRefs, t, th, bo);
    var s1 := DropDom(s, BoDom(b)).(bos := s.bos[b := bo]);
    JobRefsThread(s1.threads, s1.jobs, s1.jobRefs, s1.domRefs.ptr, s1.maps, t, th);
    ThreadIdsOf(s1, t, th);
  }

  // ThreadIds for a state in the middle of a step.
  lemma ThreadIdsOf(s: State, t: nat, th: Thread)
    requires WellTyped(s) && DomHolders(s.domRefs.ptr, s.files, s.threads, s.bos, s.jobs, s.jobRefs.kref)
    requires DomLinks(s.domRefs.ptr, s.doms, s.files, s.threads, s.bos, s.jobs)
    requires t < |s.threads| && SameThread(s.threads[t], th) && ThreadTyped(s, th)
    requires HasCand(th.pc) == HasCand(s.threads[t].pc)
    requires OnlyOpen(s.files, s.threads, s.bos, s.jobs) && (!th.pc.Done? ==> !s.threads[t].pc.Done?)
    ensures var threads := s.threads[t := th];
      && WellTyped(s.(threads := threads))
      && DomHolders(s.domRefs.ptr, s.files, threads, s.bos, s.jobs, s.jobRefs.kref)
      && DomLinks(s.domRefs.ptr, s.doms, s.files, threads, s.bos, s.jobs)
      && OnlyOpen(s.files, threads, s.bos, s.jobs)
  {
  }

  // An unpublished buffer has no holder but its creator.
  lemma MakerOnly(threads: seq<Thread>, bos: seq<Bo>, refs: R.Refs<BoHolder, nat>, t: nat)
    requires BoRefs(threads, bos, refs) && R.Balanced(refs)
    requires t < |threads| && !threads[t].submit && threads[t].pc.UndoAlloc?
    ensures Maker(t) in refs.ptr && refs.ptr[Maker(t)] == threads[t].bo < |bos| && refs.ptr[Maker(t)] in refs.kref
    ensures R.IsLast(refs, Maker(t))
  {
    hide R.Balanced;
    MakerLive(threads, bos, refs, t);
    assert MakerOk(t, threads[t], bos, refs.ptr);
    forall g <- refs.ptr ensures refs.ptr[g] == threads[t].bo ==> g == Maker(t) {
      assert BoHolderOk(g, refs.ptr[g], threads, bos);
    }
    R.PutBalanced(refs, Maker(t));
  }

  lemma AllocGoneRefs(threads: seq<Thread>, bos: seq<Bo>, refs: R.Refs<BoHolder, nat>, t: nat)
    requires BoRefs(threads, bos, refs) && t < |threads| && !threads[t].submit && threads[t].pc.UndoAlloc?
    requires Maker(t) in refs.ptr && refs.ptr[Maker(t)] in refs.kref && R.IsLast(refs, Maker(t))
    requires refs.ptr[Maker(t)] == threads[t].bo < |bos|
    ensures BoRefs(threads[t := threads[t].(pc := Done)], bos[threads[t].bo := bos[threads[t].bo].(st := Freed)],
                   R.Put(refs, Maker(t)))
  {
    var b := threads[t].bo;
    assert MakerOk(t, threads[t], bos, refs.ptr);
    var threads2, bos2, refs2 :=
      threads[t := threads[t].(pc := Done)], bos[b := bos[b].(st := Freed)], R.Put(refs, Maker(t));
    forall g <- refs2.ptr ensures BoHolderOk(g, refs2.ptr[g], threads2, bos2) {
      assert BoHolderOk(g, refs.ptr[g], threads, bos);
    }
    forall u | 0 <= u < |threads2| && !threads2[u].submit ensures MakerOk(u, threads2[u], bos2, refs2.ptr) {
      assert MakerOk(u, threads[u], bos, refs.ptr);
    }
    forall d | 0 <= d < |bos2| ensures BoOk(d, bos2[d], threads2, refs2.kref) {
      assert BoOk(d, bos[d], threads, refs.kref);
    }
  }

  lemma AllocGoneIds(s: State, b: nat, bo: Bo)
    requires WellTyped(s) && OnlyOpen(s.files, s.threads, s.bos, s.jobs)
    requires DomHolders(s.domRefs.ptr, s.files, s.threads, s.bos, s.jobs, s.jobRefs.kref)
    requires b < |s.bos| && SameBo(s.bos[b], bo) && bo.st.Freed? && s.bos[b].st.Fresh?
    ensures DomHolders(s.domRefs.ptr, s.files, s.threads, s.bos[b := bo], s.jobs, s.jobRefs.kref)
    ensures OnlyOpen(s.files, s.threads, s.bos[b := bo], s.jobs)
    ensures WellTyped(s.(bos := s.bos[b := bo]))
  {
  }

  lemma UndoAllocKeeps(s: State, t: nat)
    requires Inv(s) && t < |s.threads| && s.threads[t].pc.UndoAlloc? && !s.threads[t].submit
    ensures Inv(UndoAllocStep(s, t))
  {
    hide R.Balanced, DomHolders, DomLinks, Gens, Spaces, OnlyOpen, BoRefs, JobRefs, CoresOk, Attached, Flights, PowerOk,
      History, GrantsOk, WellTyped;
    SelfOk(s, t);
    var b := s.threads[t].bo;
    var bo := s.bos[b].(st := Freed);
    var th := s.threads[t].(pc := Done);
    MakerOnly(s.threads, s.bos, s.boRefs, t);
    AllocGoneRefs(s.threads, s.bos, s.boRefs, t);
    R.PutBalanced(s.boRefs, Maker(t));
    JobRefsThread(s.threads, s.jobs, s.jobRefs, s.domRefs.ptr, s.maps, t, th);
    ThreadIds(s, t, th);
    var s1 := SetThread(s, t, th);
    AllocGoneIds(s1, b, bo);
    BoLinks(s1, s1.doms, b, bo);
    SpacesGrow(s.lo, s.hi, s.doms, s.domRefs.ptr, s.bos, s.domRefs.ptr, s.bos[b := bo]);
    TypedFrame(s1.(bos := s1.bos[b := bo]), UndoAllocStep(s, t));
  }
}
