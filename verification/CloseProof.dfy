/**
 rocket_open and rocket_postclose keep the invariant.
 */
module CloseProof {
  import opened Options
  import opened Machine
  import opened Invariants
  import opened IoProof
  import opened GetProof
  import opened MemProof
  import R = Refs
  import A = AddressSpace

  lemma OpenLinks(s: State)
    requires WellTyped(s) && DomLinks(s.domRefs.ptr, s.doms, s.files, s.threads, s.bos, s.jobs)
    requires DomHolders(s.domRefs.ptr, s.files, s.threads, s.bos, s.jobs, s.jobRefs.kref)
    ensures DomLinks(s.domRefs.ptr, s.doms, s.files + [Open], s.threads, s.bos, s.jobs)
  {
    var files := s.files + [Open];
    forall h <- s.domRefs.ptr
      ensures LinkOk(h, s.domRefs.ptr[h], s.domRefs.ptr, s.doms, files, s.threads, s.bos, s.jobs)
    {
      assert LinkOk(h, s.domRefs.ptr[h], s.domRefs.ptr, s.doms, s.files, s.threads, s.bos, s.jobs);
      assert DomHolderOk(h, s.files, s.threads, s.bos, s.jobs, s.jobRefs.kref);
    }
  }

  lemma OpenRest(s: State)
    requires WellTyped(s) && OnlyOpen(s.files, s.threads, s.bos, s.jobs)
    requires DomHolders(s.domRefs.ptr, s.files, s.threads, s.bos, s.jobs, s.jobRefs.kref)
    ensures var files := s.files + [Open];
      && WellTyped(s.(files := files)) && OnlyOpen(files, s.threads, s.bos, s.jobs)
      && DomHolders(s.domRefs.ptr, files, s.threads, s.bos, s.jobs, s.jobRefs.kref)
  {
  }

  lemma OpenFrames(s: State)
    requires GrantsOk(s.grants, s.files, s.domRefs.ptr, s.doms) && Attached(s.mmus, s.doms, s.domRefs.ptr, s.files)
    ensures var files := s.files + [Open];
      GrantsOk(s.grants, files, s.domRefs.ptr, s.doms) && Attached(s.mmus, s.doms, s.domRefs.ptr, files)
  {
    AttachedFrame(s, s.(files := s.files + [Open]));
  }

  lemma OpenKeeps(s: State)
    requires Inv(s)
    ensures Inv(s.(files := s.files + [Open]))
  {
    hide R.Balanced, DomHolders, DomLinks, Gens, Spaces, OnlyOpen, BoRefs, JobRefs, CoresOk, Attached, Flights, PowerOk,
      History, GrantsOk, WellTyped;
    OpenLinks(s);
    OpenRest(s);
    OpenFrames(s);
  }

  // ---- one file moves along open, detaching, draining, closed ----

  // Nothing is active in the file and its pool is being given up.
  ghost predicate FileStep(s: State, f: nat, phase: FilePhase) {
    && f < |s.files| && !phase.Open?
    && (Pooled(phase) ==> Pooled(s.files[f]))
    && (s.files[f].Open? ==> CanClose(s, f))
  }

  lemma FileHolders(s: State, f: nat, phase: FilePhase, ptr: map<DomHolder, nat>)
    requires WellTyped(s) && OnlyOpen(s.files, s.threads, s.bos, s.jobs) && FileStep(s, f, phase)
    requires DomHolders(s.domRefs.ptr, s.files, s.threads, s.bos, s.jobs, s.jobRefs.kref)
    requires forall h: DomHolder :: !h.Slot? ==> (h in ptr <==> h in s.domRefs.ptr)
    requires forall g: nat, i: nat :: Slot(g, i) in ptr ==> Slot(g, i) in s.domRefs.ptr
    requires forall i: nat :: Slot(f, i) in ptr && SlotKept(s.files[f], i) ==> SlotKept(phase, i)
    ensures WellTyped(s.(files := s.files[f := phase]))
    ensures OnlyOpen(s.files[f := phase], s.threads, s.bos, s.jobs)
    ensures DomHolders(ptr, s.files[f := phase], s.threads, s.bos, s.jobs, s.jobRefs.kref)
  {
    var files := s.files[f := phase];
    forall h <- ptr ensures DomHolderOk(h, files, s.threads, s.bos, s.jobs, s.jobRefs.kref) {
      assert DomHolderOk(h, s.files, s.threads, s.bos, s.jobs, s.jobRefs.kref);
    }
  }

  lemma FileLinks(s: State, f: nat, phase: FilePhase)
    requires DomLinks(s.domRefs.ptr, s.doms, s.files, s.threads, s.bos, s.jobs) && FileStep(s, f, phase)
    requires GrantsOk(s.grants, s.files, s.domRefs.ptr, s.doms)
    ensures DomLinks(s.domRefs.ptr, s.doms, s.files[f := phase], s.threads, s.bos, s.jobs)
    ensures GrantsOk(s.grants, s.files[f := phase], s.domRefs.ptr, s.doms)
  {
    var files := s.files[f := phase];
    forall h <- s.domRefs.ptr
      ensures LinkOk(h, s.domRefs.ptr[h], s.domRefs.ptr, s.doms, files, s.threads, s.bos, s.jobs)
    {
      assert LinkOk(h, s.domRefs.ptr[h], s.domRefs.ptr, s.doms, s.files, s.threads, s.bos, s.jobs);
    }
    forall k | 0 <= k < |s.grants| ensures GrantOk(s.grants[k], files, s.domRefs.ptr, s.doms) {
      assert GrantOk(s.grants[k], s.files, s.domRefs.ptr, s.doms);
    }
  }

  lemma CloseBeginKeeps(s: State, f: nat)
    requires Inv(s) && f < |s.files| && s.files[f].Open? && CanClose(s, f)
    ensures Inv(s.(files := s.files[f := Detaching(0)]))
  {
    hide R.Balanced, DomHolders, DomLinks, Gens, Spaces, OnlyOpen, BoRefs, JobRefs, CoresOk, Attached, Flights, PowerOk,
      History, GrantsOk, WellTyped, CanClose;
    FileHolders(s, f, Detaching(0), s.domRefs.ptr);
    FileLinks(s, f, Detaching(0));
    assert Attached(s.mmus, s.doms, s.domRefs.ptr, s.files[f := Detaching(0)]) by {
      DetachingFrame(s, f, 0, s.mmus);
    }
  }

  predicate OfFile(m: Mmu, doms: map<nat, Dom>, f: nat) {
    m.attached.Some? && m.attached.value in doms && doms[m.attached.value].file == f
  }

  // Cores from `core` on may still be attached to file f's domains, and only those.
  lemma DetachingFrame(s: State, f: nat, core: nat, mmus: seq<Mmu>)
    requires Attached(s.mmus, s.doms, s.domRefs.ptr, s.files) && f < |s.files| && |mmus| == |s.mmus|
    requires s.files[f].Open? || s.files[f].Detaching?
    requires forall c | 0 <= c < |mmus| ::
      mmus[c] == Mmu(None, None) || (mmus[c] == s.mmus[c] && (OfFile(mmus[c], s.doms, f) ==> core <= c))
    ensures Attached(mmus, s.doms, s.domRefs.ptr, s.files[f := Detaching(core)])
    ensures core >= |mmus| ==> Attached(mmus, s.doms, s.domRefs.ptr, s.files[f := Draining(0)])
  {
    var files, files2 := s.files[f := Detaching(core)], s.files[f := Draining(0)];
    forall c | 0 <= c < |mmus|
      ensures AttachOk(c, mmus[c], s.doms, s.domRefs.ptr, files)
      ensures core >= |mmus| ==> AttachOk(c, mmus[c], s.doms, s.domRefs.ptr, files2)
    {
      assert AttachOk(c, s.mmus[c], s.doms, s.domRefs.ptr, s.files);
    }
  }

  // What rocket_job_close does to core c: afterwards c is attached to none of f's domains.
  lemma DetachShape(s: State, f: nat, c: nat)
    requires Inv(s) && f < |s.files| && c < |s.cores| && s.files[f] == Detaching(c)
    ensures var s' := CloseDetach(s, f, c);
      && (s'.mmus == s.mmus || s'.mmus == s.mmus[c := Mmu(None, None)])
      && |s'.mmus| == |s.mmus|
      && (forall k | 0 <= k < |s.mmus| ::
            s'.mmus[k] == Mmu(None, None)
            || (s'.mmus[k] == s.mmus[k] && (OfFile(s.mmus[k], s.doms, f) ==> c + 1 <= k)))
      && (s'.mmus != s.mmus ==> OfFile(s.mmus[c], s.doms, f))
  {
    hide R.Balanced, Gens, Spaces, OnlyOpen, BoRefs, JobRefs, CoresOk, Flights, PowerOk, History, GrantsOk;
    forall k | 0 <= k < |s.mmus| && s.mmus[k].attached.Some?
      ensures s.mmus[k].attached.value in s.doms
      ensures OfFile(s.mmus[k], s.doms, f) ==>
        var a := s.mmus[k].attached.value;
        var slot := Slot(f, s.doms[a].idx);
        c <= k && slot in s.domRefs.ptr && s.domRefs.ptr[slot] == a && s.doms[a].idx < MAX_DOMAINS
    {
      assert AttachOk(k, s.mmus[k], s.doms, s.domRefs.ptr, s.files);
      var a := s.mmus[k].attached.value;
      assert s.doms[a].file == f ==>
        DomHolderOk(Slot(f, s.doms[a].idx), s.files, s.threads, s.bos, s.jobs, s.jobRefs.kref);
    }
    forall i: nat | Slot(f, i) in s.domRefs.ptr ensures s.doms[s.domRefs.ptr[Slot(f, i)]].file == f {
      assert LinkOk(Slot(f, i), s.domRefs.ptr[Slot(f, i)], s.domRefs.ptr, s.doms, s.files, s.threads, s.bos, s.jobs);
    }
  }

  // A core that close detaches has no job in flight that still needs the domain.
  lemma DetachFlights(s: State, f: nat, c: nat)
    requires Inv(s) && f < |s.files| && c < |s.cores| && s.files[f] == Detaching(c) && s.cores[c].lock.Unlocked?
    ensures var s' := CloseDetach(s, f, c); Flights(s'.cores, s'.mmus, s'.domRefs.ptr)
  {
    hide IoInv, PowerOk, History, Attached, WellTyped;
    DetachShape(s, f, c);
    if CloseDetach(s, f, c).mmus != s.mmus && s.cores[c].flight.Some? {
      assert FlightOk(s.cores[c], s.mmus[c], s.domRefs.ptr);
      assert CoreOk(c, s.cores[c], s.jobs);
      ActiveOpen(s, s.cores[c].flight.value);
    }
  }

  lemma ActiveOpen(s: State, j: nat)
    requires Inv(s) && j < |s.jobs| && s.jobs[j].st.Active? && JobDom(j) in s.domRefs.ptr
    ensures s.domRefs.ptr[JobDom(j)] in s.doms && InFile(s.files, s.doms[s.domRefs.ptr[JobDom(j)]].file)
  {
    hide R.Balanced, DomHolders, Gens, Spaces, BoRefs, JobRefs, CoresOk, Attached, Flights, PowerOk, History, GrantsOk,
      WellTyped;
    assert LinkOk(JobDom(j), s.domRefs.ptr[JobDom(j)], s.domRefs.ptr, s.doms, s.files, s.threads, s.bos, s.jobs);
  }

  lemma MmusTyped(s: State, mmus: seq<Mmu>)
    requires WellTyped(s) && |mmus| == |s.mmus|
    ensures WellTyped(s.(mmus := mmus))
  {
  }

  lemma CloseCoreKeeps(s: State, f: nat)
    requires Inv(s) && f < |s.files| && FileEnabled(s, f, CloseCore)
    ensures Inv(FileApply(s, f, CloseCore))
  {
    hide R.Balanced, DomHolders, DomLinks, Gens, Spaces, OnlyOpen, BoRefs, JobRefs, CoresOk, Attached, Flights, PowerOk,
      History, GrantsOk, WellTyped;
    CoreCount(s);
    var c := s.files[f].core;
    var s' := CloseDetach(s, f, c);
    DetachShape(s, f, c);
    DetachFlights(s, f, c);
    FileHolders(s, f, s'.files[f], s.domRefs.ptr);
    FileLinks(s, f, s'.files[f]);
    DetachingFrame(s, f, c + 1, s'.mmus);
    MmusTyped(s.(files := s'.files), s'.mmus);
  }

  lemma CoreCount(s: State)
    requires WellTyped(s)
    ensures |s.cores| == |s.mmus|
  {
  }

  // ---- rocket_iommu_domains_close ----

  lemma DrainReady(s: State, f: nat, i: nat)
    requires Inv(s) && f < |s.files| && s.files[f] == Draining(i) && Slot(f, i) in s.domRefs.ptr
    ensures Unattached(s, Slot(f, i))
    ensures s.domRefs.ptr[Slot(f, i)] in s.doms && s.doms[s.domRefs.ptr[Slot(f, i)]].space.nodes == map[]
  {
    hide R.Balanced, DomHolders, Gens, BoRefs, JobRefs, CoresOk, Flights, PowerOk, History, GrantsOk, WellTyped, A.Ok;
    var a := s.domRefs.ptr[Slot(f, i)];
    assert LinkOk(Slot(f, i), a, s.domRefs.ptr, s.doms, s.files, s.threads, s.bos, s.jobs);
    forall c | 0 <= c < |s.mmus| ensures s.mmus[c].attached != Some(a) {
      assert AttachOk(c, s.mmus[c], s.doms, s.domRefs.ptr, s.files);
    }
    NodesOpen(s, a);
  }

  // A domain with an allocated node has a buffer, so its file is still open.
  lemma NodesOpen(s: State, a: nat)
    requires Inv(s) && a in s.doms
    ensures s.doms[a].space.nodes != map[] ==> InFile(s.files, s.doms[a].file)
  {
    hide R.Balanced, DomHolders, Gens, BoRefs, JobRefs, CoresOk, Attached, Flights, PowerOk, History, GrantsOk,
      WellTyped, A.Ok;
    forall b | b in s.doms[a].space.nodes ensures InFile(s.files, s.doms[a].file) {
      assert NodeOk(b, a, s.doms[a].space.nodes[b], s.domRefs.ptr, s.bos);
      assert LinkOk(BoDom(b), a, s.domRefs.ptr, s.doms, s.files, s.threads, s.bos, s.jobs);
    }
    assert s.doms[a].space.nodes != map[] ==> exists b :: b in s.doms[a].space.nodes;
  }

  lemma DrainAttached(s: State, f: nat, phase: FilePhase)
    requires Attached(s.mmus, s.doms, s.domRefs.ptr, s.files) && f < |s.files| && s.files[f].Draining?
    ensures Attached(s.mmus, s.doms, s.domRefs.ptr, s.files[f := phase])
  {
    var files := s.files[f := phase];
    forall c | 0 <= c < |s.mmus| ensures AttachOk(c, s.mmus[c], s.doms, s.domRefs.ptr, files) {
      assert AttachOk(c, s.mmus[c], s.doms, s.domRefs.ptr, s.files);
    }
  }

  lemma CloseDomainKeeps(s: State, f: nat)
    requires Inv(s) && f < |s.files| && s.files[f].Draining?
    ensures Inv(CloseSlot(s, f, s.files[f].slot))
  {
    hide R.Balanced, DomHolders, DomLinks, Gens, Spaces, OnlyOpen, BoRefs, JobRefs, CoresOk, Attached, Flights, PowerOk,
      History, GrantsOk, WellTyped;
    var i := s.files[f].slot;
    var phase := if i + 1 < MAX_DOMAINS then Draining(i + 1) else Closed;
    var h := Slot(f, i);
    var s1 := s.(files := s.files[f := phase]);
    DrainSlots(s, f);
    FileLinks(s, f, phase);
    DrainAttached(s, f, phase);
    FileHolders(s, f, phase, s.domRefs.ptr - {h});
    if h in s.domRefs.ptr {
      DrainReady(s, f, i);
      var s' := DropDom(s1, h);
      DropDomOk(s1, h);
      DroppedLinks(s1, s', h);
      DroppedSpaces(s1, s', h);
      DroppedRest(s1, s', h);
      DroppedFlights(s1, s', h);
      JobRefsPtr(s1, s'.domRefs.ptr);
      DroppedTyped(s1, s', h);
      assert CloseSlot(s, f, i) == s';
    } else {
      assert s.domRefs.ptr - {h} == s.domRefs.ptr;
    }
  }

  lemma DrainSlots(s: State, f: nat)
    requires Inv(s) && f < |s.files| && s.files[f].Draining?
    ensures forall i: nat :: Slot(f, i) in s.domRefs.ptr ==> i < MAX_DOMAINS && s.files[f].slot <= i
  {
    hide R.Balanced, DomLinks, Gens, Spaces, OnlyOpen, BoRefs, JobRefs, CoresOk, Attached, Flights, PowerOk, History,
      GrantsOk, WellTyped;
    forall i: nat | Slot(f, i) in s.domRefs.ptr ensures i < MAX_DOMAINS && s.files[f].slot <= i {
      assert DomHolderOk(Slot(f, i), s.files, s.threads, s.bos, s.jobs, s.jobRefs.kref);
    }
  }
}
