/**
 Closing a file relies on its jobs being done and its buffers being gone: each guard is
 exactly what one half of rocket_postclose needs.
 */
module CloseGuards {
  import opened Options
  import opened Machine
  import opened Invariants
  import opened Runs
  import RunProof
  import R = Refs

  // Detaching on behalf of file f leaves a job in flight translated through its own domain
  // exactly if the job is not of file f.
  lemma DetachSparesOthers(s: State, f: nat, c: nat)
    requires Reachable(s) && f < |s.files| && c < |s.cores| == |s.mmus|
    requires s.cores[c].flight.Some? && s.cores[c].lock.Unlocked?
    ensures s.cores[c].flight.value < |s.jobs| && JobLive(s, s.cores[c].flight.value)
    ensures var j := s.cores[c].flight.value;
      CloseDetach(s, f, c).mmus[c].hw == Some(s.doms[s.domRefs.ptr[JobDom(j)]].gen) <==> s.jobs[j].file != f
  {
    hide R.Balanced, DomHolders, Gens, Spaces, OnlyOpen, BoRefs, JobRefs, PowerOk, History, GrantsOk, WellTyped;
    ReachableInv(s);
    var j := s.cores[c].flight.value;
    assert CoreOk(c, s.cores[c], s.jobs);
    RunProof.LiveJob(s, j);
    assert FlightOk(s.cores[c], s.mmus[c], s.domRefs.ptr);
    assert AttachOk(c, s.mmus[c], s.doms, s.domRefs.ptr, s.files);
    var a := s.domRefs.ptr[JobDom(j)];
    assert LinkOk(JobDom(j), a, s.domRefs.ptr, s.doms, s.files, s.threads, s.bos, s.jobs);
    forall i: nat | i < MAX_DOMAINS && Slot(f, i) in s.domRefs.ptr && s.domRefs.ptr[Slot(f, i)] == a
      ensures s.jobs[j].file == f
    {
      assert LinkOk(Slot(f, i), a, s.domRefs.ptr, s.doms, s.files, s.threads, s.bos, s.jobs);
    }
    if s.jobs[j].file == f {
      var i := s.doms[a].idx;
      SlotIndex(s, f, i);
      assert Slot(f, i) in s.domRefs.ptr && s.mmus[c].attached == Some(s.domRefs.ptr[Slot(f, i)]);
    }
  }

  lemma SlotIndex(s: State, f: nat, i: nat)
    requires Inv(s) && Slot(f, i) in s.domRefs.ptr
    ensures i < MAX_DOMAINS && f < |s.files|
  {
    hide R.Balanced, DomLinks, Gens, Spaces, OnlyOpen, BoRefs, JobRefs, CoresOk, Attached, Flights, PowerOk, History,
      GrantsOk, WellTyped;
    assert DomHolderOk(Slot(f, i), s.files, s.threads, s.bos, s.jobs, s.jobRefs.kref);
  }

  // A buffer still occupying its domain's allocator.
  predicate Occupies(bo: Bo, f: nat, i: nat) {
    bo.file == f && bo.idx == i && (bo.st.HasNode? || bo.st.Mapped?)
  }

  // Clearing a pool slot finds the allocator empty exactly if no buffer of the file occupies it.
  lemma TakedownNeedsNoBuffers(s: State, f: nat, i: nat)
    requires Reachable(s) && f < |s.files| && Pooled(s.files[f]) && Slot(f, i) in s.domRefs.ptr
    ensures AllocatorNotEmpty in CloseSlot(s, f, i).faults
       <==> exists b :: 0 <= b < |s.bos| && Occupies(s.bos[b], f, i)
  {
    hide R.Balanced, DomHolders, Gens, OnlyOpen, BoRefs, JobRefs, CoresOk, Attached, Flights, PowerOk, History,
      GrantsOk, WellTyped, DropDom;
    ReachableInv(s);
    var a := s.domRefs.ptr[Slot(f, i)];
    assert LinkOk(Slot(f, i), a, s.domRefs.ptr, s.doms, s.files, s.threads, s.bos, s.jobs);
    var s1 := s.(files := s.files[f := if i + 1 < MAX_DOMAINS then Draining(i + 1) else FilePhase.Closed]);
    DropFaults(Raise(s1, s.doms[a].space.nodes != map[], AllocatorNotEmpty), Slot(f, i));
    if b :| b in s.doms[a].space.nodes {
      assert NodeOk(b, a, s.doms[a].space.nodes[b], s.domRefs.ptr, s.bos);
      assert LinkOk(BoDom(b), a, s.domRefs.ptr, s.doms, s.files, s.threads, s.bos, s.jobs);
      assert Occupies(s.bos[b], f, i);
    }
    if b :| 0 <= b < |s.bos| && Occupies(s.bos[b], f, i) {
      assert LinkOk(BoDom(b), s.domRefs.ptr[BoDom(b)], s.domRefs.ptr, s.doms, s.files, s.threads, s.bos, s.jobs);
      assert b in s.doms[a].space.nodes;
    }
  }

  lemma DropFaults(s: State, h: DomHolder)
    ensures AllocatorNotEmpty in DropDom(s, h).faults <==> AllocatorNotEmpty in s.faults
  {
  }
}
