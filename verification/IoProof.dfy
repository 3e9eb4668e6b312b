/**
 Frames shared by the ioctl steps, and the steps of rocket_iommu_domain_get.
 */
module IoProof {
  import opened Options
  import opened Machine
  import opened Invariants
  import R = Refs
  import A = AddressSpace

  // ---- frames ----

  predicate SameThread(a: Thread, b: Thread) {
    b.file == a.file && b.idx == a.idx && b.submit == a.submit && b.bo == a.bo && b.core == a.core
  }

  predicate SameBo(a: Bo, b: Bo) {
    b.file == a.file && b.idx == a.idx && b.maker == a.maker
  }

  lemma AttachedFrame(s: State, s': State)
    requires Attached(s.mmus, s.doms, s.domRefs.ptr, s.files) && s'.mmus == s.mmus
    requires |s.files| <= |s'.files| && forall f | 0 <= f < |s.files| :: s'.files[f] == s.files[f]
    requires forall f: nat, i: nat :: Slot(f, i) in s.domRefs.ptr && s.domRefs.ptr[Slot(f, i)] in s.doms ==>
      && Slot(f, i) in s'.domRefs.ptr && s'.domRefs.ptr[Slot(f, i)] == s.domRefs.ptr[Slot(f, i)]
      && var a := s.domRefs.ptr[Slot(f, i)];
         && a in s'.doms && s'.doms[a].gen == s.doms[a].gen && s'.doms[a].file == s.doms[a].file
         && s'.doms[a].idx == s.doms[a].idx
    ensures Attached(s'.mmus, s'.doms, s'.domRefs.ptr, s'.files)
  {
    forall c | 0 <= c < |s'.mmus| ensures AttachOk(c, s'.mmus[c], s'.doms, s'.domRefs.ptr, s'.files) {
      assert AttachOk(c, s.mmus[c], s.doms, s.domRefs.ptr, s.files);
    }
  }

  lemma FlightsFrame(s: State, s': State)
    requires Flights(s.cores, s.mmus, s.domRefs.ptr) && s'.mmus == s.mmus && s'.cores == s.cores
    requires CoresOk(s.cores, s.jobs)
    requires forall j | 0 <= j < |s.jobs| :: s.jobs[j].st == Active && JobDom(j) in s.domRefs.ptr ==>
      JobDom(j) in s'.domRefs.ptr && s'.domRefs.ptr[JobDom(j)] == s.domRefs.ptr[JobDom(j)]
    ensures Flights(s'.cores, s'.mmus, s'.domRefs.ptr)
  {
    forall c | 0 <= c < |s'.cores| ensures FlightOk(s'.cores[c], s'.mmus[c], s'.domRefs.ptr) {
      assert FlightOk(s.cores[c], s.mmus[c], s.domRefs.ptr);
      assert CoreOk(c, s.cores[c], s.jobs);
    }
  }

  // Pointers may be added and buffers without a node may change; nothing else.
  lemma SpacesGrow(lo: nat, hi: nat, doms: map<nat, Dom>, ptr: map<DomHolder, nat>, bos: seq<Bo>,
                   ptr2: map<DomHolder, nat>, bos2: seq<Bo>)
    requires Spaces(lo, hi, doms, ptr, bos) && |bos| <= |bos2|
    requires forall b: nat :: BoDom(b) in ptr && (b < |bos| ==> HasSpaceState(bos[b].st)) ==>
      BoDom(b) in ptr2 && ptr2[BoDom(b)] == ptr[BoDom(b)]
    requires forall b | 0 <= b < |bos2| ::
      (b < |bos| && bos2[b] == bos[b]) || (!HasSpaceState(bos2[b].st) && (b < |bos| ==> !HasSpaceState(bos[b].st)))
    ensures Spaces(lo, hi, doms, ptr2, bos2)
  {
    hide A.Ok;
    forall a <- doms, b <- doms[a].space.nodes ensures NodeOk(b, a, doms[a].space.nodes[b], ptr2, bos2) {
      assert NodeOk(b, a, doms[a].space.nodes[b], ptr, bos);
    }
  }

  predicate HasSpaceState(st: BoState) {
    st.HasNode? || st.Mapped?
  }

  lemma EmptyOk(lo: nat, hi: nat)
    ensures hi % A.PAGE == 0 ==> A.Ok(A.Empty(lo, hi))
  {
  }

  // A domain with an empty address space appears.
  lemma SpacesAdd(lo: nat, hi: nat, doms: map<nat, Dom>, ptr: map<DomHolder, nat>, bos: seq<Bo>,
                  doms2: map<nat, Dom>, ptr2: map<DomHolder, nat>)
    requires Spaces(lo, hi, doms, ptr, bos)
    requires forall a <- doms :: a in doms2 && doms2[a] == doms[a]
    requires forall a <- doms2 :: a in doms || doms2[a].space == A.Empty(lo, hi)
    requires forall b: nat :: BoDom(b) in ptr ==> BoDom(b) in ptr2 && ptr2[BoDom(b)] == ptr[BoDom(b)]
    ensures Spaces(lo, hi, doms2, ptr2, bos)
  {
    hide A.Ok;
    EmptyOk(lo, hi);
    forall a <- doms2, b <- doms2[a].space.nodes ensures NodeOk(b, a, doms2[a].space.nodes[b], ptr2, bos) {
      assert NodeOk(b, a, doms[a].space.nodes[b], ptr, bos);
    }
  }

  // ---- one thread changes ----

  lemma BoRefsThread(threads: seq<Thread>, bos: seq<Bo>, refs: R.Refs<BoHolder, nat>, t: nat, th: Thread)
    requires BoRefs(threads, bos, refs) && t < |threads| && SameThread(threads[t], th)
    requires !threads[t].pc.Done? && !th.pc.Done?
    requires !th.submit ==> MakerOk(t, th, bos, refs.ptr)
    ensures BoRefs(threads[t := th], bos, refs)
  {
    var threads2 := threads[t := th];
    forall h <- refs.ptr ensures BoHolderOk(h, refs.ptr[h], threads2, bos) {
      assert BoHolderOk(h, refs.ptr[h], threads, bos);
    }
    forall b | 0 <= b < |bos| ensures BoOk(b, bos[b], threads2, refs.kref) {
      assert BoOk(b, bos[b], threads, refs.kref);
    }
  }

  // A creating thread moves on together with its unpublished buffer.
  lemma BoRefsMaker(threads: seq<Thread>, bos: seq<Bo>, refs: R.Refs<BoHolder, nat>, t: nat, th: Thread, bo: Bo)
    requires BoRefs(threads, bos, refs) && t < |threads| && SameThread(threads[t], th) && !th.submit
    requires !threads[t].pc.Done? && !threads[t].pc.Finish? && !th.pc.Done? && !th.pc.Finish?
    requires th.bo < |bos| && SameBo(bos[th.bo], bo) && MakerOk(t, th, bos[th.bo := bo], refs.ptr)
    ensures BoRefs(threads[t := th], bos[th.bo := bo], refs)
  {
    var threads2, bos2 := threads[t := th], bos[th.bo := bo];
    assert MakerOk(t, threads[t], bos, refs.ptr);
    forall h <- refs.ptr ensures BoHolderOk(h, refs.ptr[h], threads2, bos2) {
      assert BoHolderOk(h, refs.ptr[h], threads, bos);
    }
    forall u | 0 <= u < |threads2| && !threads2[u].submit ensures MakerOk(u, threads2[u], bos2, refs.ptr) {
      assert MakerOk(u, threads[u], bos, refs.ptr);
    }
    forall b | 0 <= b < |bos2| ensures BoOk(b, bos2[b], threads2, refs.kref) {
      assert BoOk(b, bos[b], threads, refs.kref);
    }
  }

  lemma JobRefsThread(threads: seq<Thread>, jobs: seq<Job>, refs: R.Refs<JobHolder, nat>, domPtr: map<DomHolder, nat>,
                      maps: set<nat>, t: nat, th: Thread)
    requires JobRefs(threads, jobs, refs, domPtr, maps) && t < |threads| && SameThread(threads[t], th)
    requires th.job == threads[t].job
    requires th.submit ==>
      && SubmitOk(t, th, jobs, refs.ptr, domPtr)
      && HoldsJob(th.pc) == HoldsJob(threads[t].pc) && HasMap(th.pc) == HasMap(threads[t].pc)
      && (BaseReady(threads[t].pc) ==> BaseReady(th.pc))
    ensures JobRefs(threads[t := th], jobs, refs, domPtr, maps)
  {
    var threads2 := threads[t := th];
    forall h <- refs.ptr ensures JobHolderOk(h, refs.ptr[h], threads2, jobs) {
      assert JobHolderOk(h, refs.ptr[h], threads, jobs);
    }
    forall j | 0 <= j < |jobs| ensures JobOk(j, jobs[j], threads2, refs) {
      assert JobOk(j, jobs[j], threads, refs);
    }
  }

  // Everything that depends on a thread only through its identity and control point class.
  lemma ThreadIds(s: State, t: nat, th: Thread)
    requires Inv(s) && t < |s.threads| && SameThread(s.threads[t], th) && ThreadTyped(s, th)
    requires HasCand(th.pc) == HasCand(s.threads[t].pc) && !s.threads[t].pc.Done?
    ensures var s' := SetThread(s, t, th);
      && WellTyped(s')
      && DomHolders(s'.domRefs.ptr, s'.files, s'.threads, s'.bos, s'.jobs, s'.jobRefs.kref)
      && DomLinks(s'.domRefs.ptr, s'.doms, s'.files, s'.threads, s'.bos, s'.jobs)
      && OnlyOpen(s'.files, s'.threads, s'.bos, s'.jobs)
  {
    hide R.Balanced, Gens, Spaces, BoRefs, JobRefs, CoresOk, Attached, Flights, PowerOk, History, GrantsOk;
  }

  lemma ThreadKeeps(s: State, t: nat, th: Thread)
    requires Inv(s) && t < |s.threads| && SameThread(s.threads[t], th) && ThreadTyped(s, th)
    requires HasCand(th.pc) == HasCand(s.threads[t].pc) && !s.threads[t].pc.Done? && !th.pc.Done?
    requires th.job == s.threads[t].job
    requires if th.submit then
        && SubmitOk(t, th, s.jobs, s.jobRefs.ptr, s.domRefs.ptr)
        && HoldsJob(th.pc) == HoldsJob(s.threads[t].pc) && HasMap(th.pc) == HasMap(s.threads[t].pc)
        && (BaseReady(s.threads[t].pc) ==> BaseReady(th.pc))
      else MakerOk(t, th, s.bos, s.boRefs.ptr)
    ensures Inv(SetThread(s, t, th))
  {
    hide R.Balanced, DomHolders, DomLinks, Gens, Spaces, OnlyOpen, BoRefs, JobRefs, CoresOk, Attached, Flights, PowerOk,
      History, GrantsOk, WellTyped;
    ThreadIds(s, t, th);
    BoRefsThread(s.threads, s.bos, s.boRefs, t, th);
    JobRefsThread(s.threads, s.jobs, s.jobRefs, s.domRefs.ptr, s.maps, t, th);
  }

  // What a submit thread, or a creating thread, knows about itself.
  lemma SelfOk(s: State, t: nat)
    requires Inv(s) && t < |s.threads|
    ensures ThreadTyped(s, s.threads[t])
    ensures if s.threads[t].submit then SubmitOk(t, s.threads[t], s.jobs, s.jobRefs.ptr, s.domRefs.ptr)
            else MakerOk(t, s.threads[t], s.bos, s.boRefs.ptr)
  {
    hide R.Balanced, DomHolders, DomLinks, Gens, Spaces, OnlyOpen, CoresOk, Attached, Flights, PowerOk, History,
      GrantsOk;
  }

  // Steps that only move on, with the same obligations: a failed allocation or an empty slot.
  predicate SameRole(submit: bool, p: Pc, q: Pc) {
    && HasCand(p) == HasCand(q) && !p.Done? && !q.Done? && !p.Finish? && !q.Finish?
    && (if submit then
          && HoldsJob(p) == HoldsJob(q) && HasMap(p) == HasMap(q) && BaseReady(p) == BaseReady(q)
          && (q.Create? ==> p.Lookup?) && (q.PutJob? ==> p.InitJob?)
          && (q.Create? || q.Cleanup? || q.PutJob? || q.Vunmap? || q.PutTask?)
        else CreatePc(p) && CreatePc(q) && CreateState(p) == CreateState(q))
  }

  lemma GotoKeeps(s: State, t: nat, pc: Pc)
    requires Inv(s) && t < |s.threads| && SameRole(s.threads[t].submit, s.threads[t].pc, pc)
    ensures Inv(Goto(s, t, pc))
  {
    hide IoInv, CoresOk, Attached, Flights, PowerOk, History, WellTyped;
    SelfOk(s, t);
    ThreadKeeps(s, t, s.threads[t].(pc := pc));
  }
}
