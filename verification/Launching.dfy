/**
 What holds at every hardware launch, of every run.
 */
module Launching {
  import opened Options
  import opened Machine
  import opened Invariants
  import opened Runs
  import Frames
  import RunProof
  import R = Refs
  import A = AddressSpace

  // Domain a's page table holds exactly the mapped buffers that file f created under id i,
  // each at its own dma_addr and backed by its own pages.
  ghost predicate Translates(s: State, a: nat, f: nat, i: nat) {
    && a in s.doms && s.doms[a].file == f && s.doms[a].idx == i
    && (forall b, k: nat | 0 <= b < |s.bos| && Serves(s.bos[b], f, i) && k < A.Pages(s.bos[b].size) ::
          PageAt(s.bos[b], k) in s.doms[a].space.pt && s.doms[a].space.pt[PageAt(s.bos[b], k)] == A.Frame(b, k))
    && (forall p <- s.doms[a].space.pt :: OwnedBy(s, s.doms[a].space.pt[p], p, f, i))
  }

  ghost predicate OwnedBy(s: State, fr: A.Frame, p: nat, f: nat, i: nat) {
    && fr.bo < |s.bos| && Serves(s.bos[fr.bo], f, i)
    && fr.page < A.Pages(s.bos[fr.bo].size) && p == PageAt(s.bos[fr.bo], fr.page)
  }

  predicate Serves(bo: Bo, f: nat, i: nat) {
    bo.st.Mapped? && bo.file == f && bo.idx == i
  }

  // IOVA page of page k of a buffer whose dma_addr is its node's start.
  function PageAt(bo: Bo, k: nat): nat {
    bo.start / A.PAGE + k
  }

  // A buffer that MEM_CREATE has returned and that someone still references is mapped.
  lemma LiveIsMapped(s: State, b: nat)
    requires Inv(s) && b < |s.bos| && b in s.boRefs.kref && s.bos[b].published
    ensures s.bos[b].st.Mapped?
  {
    hide R.Balanced, DomHolders, DomLinks, Gens, Spaces, OnlyOpen, JobRefs, CoresOk, Attached, Flights, PowerOk,
      History, GrantsOk, WellTyped;
    assert BoOk(b, s.bos[b], s.threads, s.boRefs.kref);
  }

  // A mapped buffer of an open file sits in the domain its pool slot names.
  lemma MappedIn(s: State, b: nat, a: nat)
    requires Inv(s) && b < |s.bos| && s.bos[b].st.Mapped? && a in s.doms
    requires InFile(s.files, s.bos[b].file)
    requires Slot(s.bos[b].file, s.bos[b].idx) in s.domRefs.ptr && s.domRefs.ptr[Slot(s.bos[b].file, s.bos[b].idx)] == a
    ensures b in s.doms[a].space.nodes && NodeOk(b, a, s.doms[a].space.nodes[b], s.domRefs.ptr, s.bos)
    ensures s.doms[a].space.nodes[b].mapped
  {
    hide R.Balanced, Gens, OnlyOpen, BoRefs, JobRefs, CoresOk, Attached, Flights, PowerOk, History, GrantsOk, WellTyped,
      A.Ok;
    assert LinkOk(BoDom(b), s.domRefs.ptr[BoDom(b)], s.domRefs.ptr, s.doms, s.files, s.threads, s.bos, s.jobs);
  }

  lemma TranslatesAt(s: State, j: nat)
    requires Inv(s) && j < |s.jobs| && s.jobs[j].st.Active?
    ensures JobDom(j) in s.domRefs.ptr
    ensures Translates(s, s.domRefs.ptr[JobDom(j)], s.jobs[j].file, s.jobs[j].idx)
  {
    hide IoInv, CoresOk, Attached, Flights, PowerOk, History, WellTyped, A.Ok;
    RunProof.LiveJob(s, j);
    var a := s.domRefs.ptr[JobDom(j)];
    var f, i := s.jobs[j].file, s.jobs[j].idx;
    forall b, k: nat | 0 <= b < |s.bos| && Serves(s.bos[b], f, i) && k < A.Pages(s.bos[b].size)
      ensures PageAt(s.bos[b], k) in s.doms[a].space.pt && s.doms[a].space.pt[PageAt(s.bos[b], k)] == A.Frame(b, k)
    {
      MappedIn(s, b, a);
      SpaceOk(s, a);
      TableHas(s.doms[a].space, b, k);
    }
    forall p <- s.doms[a].space.pt ensures OwnedBy(s, s.doms[a].space.pt[p], p, f, i) {
      FrameOwned(s, a, p);
    }
  }

  lemma SpaceOk(s: State, a: nat)
    requires Inv(s) && a in s.doms
    ensures A.Ok(s.doms[a].space) && s.doms[a].space.lo == s.lo && s.doms[a].space.hi == s.hi
  {
    hide R.Balanced, DomHolders, DomLinks, Gens, OnlyOpen, BoRefs, JobRefs, CoresOk, Attached, Flights, PowerOk,
      History, GrantsOk, WellTyped, A.Ok;
  }

  lemma TableHas(sp: A.Space, b: nat, k: nat)
    requires A.Ok(sp) && b in sp.nodes && sp.nodes[b].mapped && k < A.Pages(sp.nodes[b].size)
    ensures A.Iova(sp.nodes[b], k) in sp.pt && sp.pt[A.Iova(sp.nodes[b], k)] == A.Frame(b, k)
  {
  }

  lemma FrameOwned(s: State, a: nat, p: nat)
    requires Inv(s) && a in s.doms && p in s.doms[a].space.pt
    ensures OwnedBy(s, s.doms[a].space.pt[p], p, s.doms[a].file, s.doms[a].idx)
  {
    hide R.Balanced, DomHolders, Gens, OnlyOpen, BoRefs, JobRefs, CoresOk, Attached, Flights, PowerOk, History,
      GrantsOk, WellTyped;
    var sp := s.doms[a].space;
    assert A.Owns(sp, p);
    var b := sp.pt[p].bo;
    assert NodeOk(b, a, sp.nodes[b], s.domRefs.ptr, s.bos);
    assert LinkOk(BoDom(b), a, s.domRefs.ptr, s.doms, s.files, s.threads, s.bos, s.jobs);
  }

  // Buffers of one file and id that are mapped at the same time occupy disjoint, page-aligned
  // ranges inside the aperture.
  lemma RangesDisjoint(s: State, b: nat, d: nat)
    requires Reachable(s) && b < |s.bos| && d < |s.bos| && s.bos[b].st.Mapped? && s.bos[d].st.Mapped?
    requires s.bos[b].file == s.bos[d].file && s.bos[b].idx == s.bos[d].idx
    ensures s.bos[b].start % A.PAGE == 0 && s.bos[b].size % A.PAGE == 0
    ensures s.lo <= s.bos[b].start && s.bos[b].start + s.bos[b].size <= s.hi
    ensures b != d ==>
      s.bos[b].start + s.bos[b].size <= s.bos[d].start || s.bos[d].start + s.bos[d].size <= s.bos[b].start
  {
    hide IoInv, CoresOk, Attached, Flights, PowerOk, History, WellTyped, A.Ok;
    ReachableInv(s);
    BoFile(s, b);
    var a := s.domRefs.ptr[Slot(s.bos[b].file, s.bos[b].idx)];
    MappedIn(s, b, a);
    MappedIn(s, d, a);
    SpaceOk(s, a);
    NodeRanges(s.doms[a].space, b, d);
  }

  lemma NodeRanges(sp: A.Space, b: nat, d: nat)
    requires A.Ok(sp) && b in sp.nodes && d in sp.nodes
    ensures var n, m := sp.nodes[b], sp.nodes[d];
      && n.start % A.PAGE == 0 && sp.lo <= n.start && n.start + A.Pages(n.size) * A.PAGE <= sp.hi
      && (b != d ==> n.start + A.Pages(n.size) * A.PAGE <= m.start || m.start + A.Pages(m.size) * A.PAGE <= n.start)
  {
    hide A.TableExact;
    var n, m := sp.nodes[b], sp.nodes[d];
    assert A.InAperture(sp, n) && A.InAperture(sp, m);
    A.RoundingIsSafe(sp, n, m);
    A.RoundingIsSafe(sp, m, n);
    assert A.FirstPage(n) * A.PAGE == n.start && A.FirstPage(m) * A.PAGE == m.start;
  }

  // A mapped buffer's file is open and its pool slot is filled.
  lemma BoFile(s: State, b: nat)
    requires Inv(s) && b < |s.bos| && s.bos[b].st.Mapped?
    ensures InFile(s.files, s.bos[b].file)
    ensures var slot := Slot(s.bos[b].file, s.bos[b].idx); slot in s.domRefs.ptr && s.domRefs.ptr[slot] in s.doms
  {
    hide R.Balanced, Gens, Spaces, BoRefs, JobRefs, CoresOk, Attached, Flights, PowerOk, History, GrantsOk, WellTyped;
    assert LinkOk(BoDom(b), s.domRefs.ptr[BoDom(b)], s.domRefs.ptr, s.doms, s.files, s.threads, s.bos, s.jobs);
    assert LinkOk(Slot(s.bos[b].file, s.bos[b].idx), s.domRefs.ptr[Slot(s.bos[b].file, s.bos[b].idx)], s.domRefs.ptr,
                  s.doms, s.files, s.threads, s.bos, s.jobs);
  }

  // ---- the launch itself ----

  // e is a correct launch: the core runs e.job with all cores powered, and the page table its
  // IOMMU really uses is that of the job's own (file, domain id), translating exactly that
  // file's buffers of that id.
  ghost predicate LaunchOk(s: State, e: Launch) {
    && e.core < |s.cores| == |s.mmus| && e.job < |s.jobs|
    && s.cores[e.core].flight == Some(e.job) && s.jobs[e.job].core == e.core
    && JobDom(e.job) in s.domRefs.ptr
    && var a := s.domRefs.ptr[JobDom(e.job)];
       && Translates(s, a, s.jobs[e.job].file, s.jobs[e.job].idx)
       && e.table == Some(s.doms[a].gen) == s.mmus[e.core].hw
       && (forall k | 0 <= k < |s.pm.usage| :: s.pm.usage[k] == 2)
  }

  // The two places that launch.
  lemma LaunchSites(s: State, st: Step)
    requires WellTyped(s) && Enabled(s, st) && !(st.OnCore? && (st.cop.Section? || st.cop.Interrupt?))
    ensures Apply(s, st).launches == s.launches
  {
    hide WellTyped, AdvanceThread, CanAdvance, BoApply, DropJob, DropDom;
    match st {
      case Advance(t, ok, arg) => Frames.AdvanceQuiet(s, t, ok, arg);
      case OnBo(b, op) => Frames.BoQuiet(s, b, op);
      case OnJob(j, op) => Frames.DropJobQuiet(CleanBase(s, j), Sched(j));
      case OnFile(f, op) => FileQuiet(s, f, op);
      case _ =>
    }
  }

  lemma FileQuiet(s: State, f: nat, op: FileOp)
    requires WellTyped(s) && f < |s.files| && FileEnabled(s, f, op)
    ensures FileApply(s, f, op).launches == s.launches && FileApply(s, f, op).jobs == s.jobs
    ensures FileApply(s, f, op).stale == s.stale && FileApply(s, f, op).threads == s.threads
    ensures FileApply(s, f, op).cores == s.cores && FileApply(s, f, op).bos == s.bos
  {
    hide DropDom;
    if op.CloseDomain? {
      var i := s.files[f].slot;
      var s1 := s.(files := s.files[f := if i + 1 < MAX_DOMAINS then Draining(i + 1) else Closed]);
      if Slot(f, i) in s.domRefs.ptr && s.domRefs.ptr[Slot(f, i)] in s.doms {
        Frames.DropDomQuiet(
          Raise(s1, s.doms[s.domRefs.ptr[Slot(f, i)]].space.nodes != map[], AllocatorNotEmpty), Slot(f, i));
      }
    }
  }

  // A core with a job in flight and its lock free is correctly set up for that job.
  lemma FlightReady(s: State, c: nat)
    requires Inv(s) && c < |s.cores| && s.cores[c].flight.Some? && s.cores[c].lock.Unlocked?
    ensures LaunchOk(s, Launch(c, s.cores[c].flight.value, s.mmus[c].hw))
  {
    hide IoInv, Attached, PowerOk, History;
    var j := s.cores[c].flight.value;
    assert CoreOk(c, s.cores[c], s.jobs);
    assert FlightOk(s.cores[c], s.mmus[c], s.domRefs.ptr);
    TranslatesAt(s, j);
    HwMatches(s, c);
    Powered2(s, c);
  }

  lemma HwMatches(s: State, c: nat)
    requires Inv(s) && c < |s.cores| && s.mmus[c].attached.Some?
    ensures s.mmus[c].attached.value in s.doms && s.mmus[c].hw == Some(s.doms[s.mmus[c].attached.value].gen)
  {
    hide IoInv, CoresOk, Flights, PowerOk, History;
    assert AttachOk(c, s.mmus[c], s.doms, s.domRefs.ptr, s.files);
  }

  // A job in flight anywhere keeps every core at two usage references.
  lemma Powered2(s: State, c: nat)
    requires Inv(s) && c < |s.cores| && Weight(s.cores[c]) > 0
    ensures s.pm.refs > 0 && forall k | 0 <= k < |s.pm.usage| :: s.pm.usage[k] == 2
  {
    hide IoInv, CoresOk, Attached, Flights, History, WellTyped;
    TotalUpdate(s.cores, c, s.cores[c]);
  }

  // From s1 to s2 the hardware was not started, or started once and correctly.
  ghost predicate LaunchesWell(s1: State, s2: State) {
    || s2.launches == s1.launches
    || (|s2.launches| == |s1.launches| + 1
        && s2.launches[..|s1.launches|] == s1.launches && LaunchOk(s2, s2.launches[|s1.launches|]))
  }

  lemma LaunchStep(s: State, st: Step)
    requires Inv(s) && Enabled(s, st)
    ensures LaunchesWell(s, Apply(s, st))
  {
    hide Inv, WellTyped, LaunchOk, CoreApply, CoreEnabled, JobApply, JobEnabled, BoApply, BoEnabled, FileApply,
      FileEnabled, AdvanceThread, CanAdvance;
    StepKeeps(s, st);
    InvTyped(s);
    if st.OnCore? && (st.cop.Section? || st.cop.Interrupt?) {
      LaunchShape(s, st.c, st.cop);
      assert CoreApply(s, st.c, st.cop) == Apply(s, st);
      if Apply(s, st).launches != s.launches {
        FlightReady(Apply(s, st), st.c);
      }
    } else {
      LaunchSites(s, st);
    }
  }

  // At every step of every run: launches are only ever appended, one at a time, and each is
  // a correct launch of the state it leaves behind.
  lemma EveryLaunch(s: State, steps: seq<Step>, st: Step)
    requires Initial(s) && s.policy.AttachOnce? && ValidRun(s, steps) && Enabled(After(s, steps), st)
    ensures LaunchesWell(After(s, steps), Apply(After(s, steps), st))
  {
    hide Inv, Enabled, Apply, LaunchesWell, WellTyped;
    InitiallyOk(s);
    RunKeeps(s, steps);
    LaunchStep(After(s, steps), st);
  }

  lemma LaunchShape(s: State, c: nat, op: CoreOp)
    requires WellTyped(s) && c < |s.cores| && CoreEnabled(s, c, op) && (op.Section? || op.Interrupt?)
    ensures var s2 := CoreApply(s, c, op);
      s2.launches == s.launches
      || (c < |s2.cores| && c < |s2.mmus| && s2.cores[c].flight.Some? && s2.cores[c].lock.Unlocked?
          && s2.launches == s.launches + [Launch(c, s2.cores[c].flight.value, s2.mmus[c].hw)])
  {
    hide WellTyped;
    assert |s.cores| == |s.mmus| by { Sizes(s); }
  }

  lemma Sizes(s: State)
    requires WellTyped(s)
    ensures |s.cores| == |s.mmus| == |s.pm.usage|
  {
  }

  lemma InvTyped(s: State)
    requires Inv(s)
    ensures WellTyped(s)
  {
    hide IoInv, CoresOk, Attached, Flights, PowerOk, History, WellTyped;
  }
}
