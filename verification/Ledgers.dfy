/**
 The three ledgers read out in the driver's own terms: who holds a domain, who holds the
 power reference, and what an ioctl leaves behind.
 */
module Ledgers {
  import opened Options
  import opened Machine
  import opened Invariants
  import opened Runs
  import RunProof
  import R = Refs
  import A = AddressSpace

  // ---- domains ----

  // The buffers whose bo->domain is the domain at a.
  ghost function BosOn(s: State, a: nat): set<nat> {
    set b | 0 <= b < |s.bos| && HasDom(s.bos[b].st) && BoDom(b) in s.domRefs.ptr && s.domRefs.ptr[BoDom(b)] == a
  }

  // The live jobs whose job->domain is the domain at a.
  ghost function JobsOn(s: State, a: nat): set<nat> {
    set j | 0 <= j < |s.jobs| && j in s.jobRefs.kref && JobDom(j) in s.domRefs.ptr && s.domRefs.ptr[JobDom(j)] == a
  }

  // The callers holding the domain at a as their uninstalled candidate.
  ghost function CandsOn(s: State, a: nat): set<nat> {
    set t | 0 <= t < |s.threads| && HasCand(s.threads[t].pc) && Cand(t) in s.domRefs.ptr && s.domRefs.ptr[Cand(t)] == a
  }

  predicate InPool(s: State, a: nat) {
    a in s.doms && var slot := Slot(s.doms[a].file, s.doms[a].idx); slot in s.domRefs.ptr && s.domRefs.ptr[slot] == a
  }

  lemma {:induction false} ImageSize(ids: set<nat>, f: nat -> DomHolder, image: set<DomHolder>)
    requires forall x, y :: x in ids && y in ids && f(x) == f(y) ==> x == y
    requires forall h :: h in image <==> exists x :: x in ids && f(x) == h
    ensures |image| == |ids|
  {
    if ids != {} {
      var x :| x in ids;
      assert f(x) in image;
      forall h ensures h in image - {f(x)} <==> exists y :: y in ids - {x} && f(y) == h {
        if h in image - {f(x)} {
          var y :| y in ids && f(y) == h;
          assert y in ids - {x};
        }
      }
      ImageSize(ids - {x}, f, image - {f(x)});
    } else {
      assert forall h :: h !in image;
      assert image == {};
    }
  }

  // The counter of every allocated domain is one for its pool slot, plus the live buffers and
  // jobs on it, plus callers in transit; a caller's candidate is on no other count; and the
  // domain is allocated exactly as long as that sum is positive.
  lemma DomainLedger(s: State, a: nat)
    requires Reachable(s)
    ensures a in s.doms <==> a in s.domRefs.kref
    ensures a in s.doms ==>
      && s.domRefs.kref[a] == (if InPool(s, a) then 1 else 0) + |BosOn(s, a)| + |JobsOn(s, a)| + |CandsOn(s, a)|
      && 0 < s.domRefs.kref[a]
      && (CandsOn(s, a) != {} ==> s.domRefs.kref[a] == 1)
    ensures a !in s.doms ==> BosOn(s, a) == {} && JobsOn(s, a) == {} && CandsOn(s, a) == {}
  {
    hide DomHolders, DomLinks, Gens, Spaces, OnlyOpen, BoRefs, JobRefs, CoresOk, Attached, Flights, PowerOk, History,
      GrantsOk, WellTyped;
    ReachableInv(s);
    if a in s.doms {
      HolderSets(s, a);
      if CandsOn(s, a) != {} {
        var t :| t in CandsOn(s, a);
        CandAlone(s, a, t);
      }
    }
  }

  lemma HolderSets(s: State, a: nat)
    requires a in s.doms
    requires DomHolders(s.domRefs.ptr, s.files, s.threads, s.bos, s.jobs, s.jobRefs.kref)
    requires DomLinks(s.domRefs.ptr, s.doms, s.files, s.threads, s.bos, s.jobs)
    ensures |R.Holders(s.domRefs.ptr, a)|
         == (if InPool(s, a) then 1 else 0) + |BosOn(s, a)| + |JobsOn(s, a)| + |CandsOn(s, a)|
  {
    hide DomHolders, DomLinks, InPool, BosOn, JobsOn, CandsOn;
    var all := R.Holders(s.domRefs.ptr, a);
    var slots := set h | h in all && h.Slot?;
    var bos := set h | h in all && h.BoDom?;
    var jobs := set h | h in all && h.JobDom?;
    var cands := set h | h in all && h.Cand?;
    FourKinds(all, slots, bos, jobs, cands);
    SlotHolders(s, a, slots);
    BoHolders(s, a, bos);
    JobHolders(s, a, jobs);
    CandHolders(s, a, cands);
  }

  lemma FourKinds(all: set<DomHolder>, slots: set<DomHolder>, bos: set<DomHolder>, jobs: set<DomHolder>,
                  cands: set<DomHolder>)
    requires slots == (set h | h in all && h.Slot?) && bos == (set h | h in all && h.BoDom?)
    requires jobs == (set h | h in all && h.JobDom?) && cands == (set h | h in all && h.Cand?)
    ensures |all| == |slots| + |bos| + |jobs| + |cands|
  {
    assert all == slots + bos + jobs + cands;
    assert |slots + bos| == |slots| + |bos|;
    assert |slots + bos + jobs| == |slots + bos| + |jobs|;
  }

  lemma BoHolders(s: State, a: nat, bos: set<DomHolder>)
    requires DomHolders(s.domRefs.ptr, s.files, s.threads, s.bos, s.jobs, s.jobRefs.kref)
    requires forall h :: h in bos <==> h in s.domRefs.ptr && s.domRefs.ptr[h] == a && h.BoDom?
    ensures |bos| == |BosOn(s, a)|
  {
    forall h ensures h in bos <==> exists b :: b in BosOn(s, a) && BoDom(b) == h {
      if h in bos {
        assert DomHolderOk(h, s.files, s.threads, s.bos, s.jobs, s.jobRefs.kref);
        assert h.b in BosOn(s, a);
      }
    }
    ImageSize(BosOn(s, a), (b: nat) => BoDom(b), bos);
  }

  lemma JobHolders(s: State, a: nat, jobs: set<DomHolder>)
    requires DomHolders(s.domRefs.ptr, s.files, s.threads, s.bos, s.jobs, s.jobRefs.kref)
    requires forall h :: h in jobs <==> h in s.domRefs.ptr && s.domRefs.ptr[h] == a && h.JobDom?
    ensures |jobs| == |JobsOn(s, a)|
  {
    forall h ensures h in jobs <==> exists j :: j in JobsOn(s, a) && JobDom(j) == h {
      if h in jobs {
        assert DomHolderOk(h, s.files, s.threads, s.bos, s.jobs, s.jobRefs.kref);
        assert h.j in JobsOn(s, a);
      }
    }
    ImageSize(JobsOn(s, a), (j: nat) => JobDom(j), jobs);
  }

  lemma CandHolders(s: State, a: nat, cands: set<DomHolder>)
    requires DomHolders(s.domRefs.ptr, s.files, s.threads, s.bos, s.jobs, s.jobRefs.kref)
    requires forall h :: h in cands <==> h in s.domRefs.ptr && s.domRefs.ptr[h] == a && h.Cand?
    ensures |cands| == |CandsOn(s, a)|
  {
    forall h ensures h in cands <==> exists t :: t in CandsOn(s, a) && Cand(t) == h {
      if h in cands {
        assert DomHolderOk(h, s.files, s.threads, s.bos, s.jobs, s.jobRefs.kref);
        assert h.t in CandsOn(s, a);
      }
    }
    ImageSize(CandsOn(s, a), (t: nat) => Cand(t), cands);
  }

  lemma SlotHolders(s: State, a: nat, slots: set<DomHolder>)
    requires a in s.doms && DomLinks(s.domRefs.ptr, s.doms, s.files, s.threads, s.bos, s.jobs)
    requires forall h :: h in slots <==> h in s.domRefs.ptr && s.domRefs.ptr[h] == a && h.Slot?
    ensures |slots| == if InPool(s, a) then 1 else 0
  {
    var mine := Slot(s.doms[a].file, s.doms[a].idx);
    forall h | h in slots ensures h == mine {
      assert LinkOk(h, a, s.domRefs.ptr, s.doms, s.files, s.threads, s.bos, s.jobs);
    }
    assert slots == if InPool(s, a) then {mine} else {};
  }

  lemma CandAlone(s: State, a: nat, t: nat)
    requires Inv(s) && Cand(t) in s.domRefs.ptr && s.domRefs.ptr[Cand(t)] == a
    ensures a in s.domRefs.kref && s.domRefs.kref[a] == 1
  {
    hide DomHolders, Gens, Spaces, OnlyOpen, BoRefs, JobRefs, CoresOk, Attached, Flights, PowerOk, History, GrantsOk,
      WellTyped;
    assert R.Holders(s.domRefs.ptr, a) == {Cand(t)};
  }

  // ---- the attach-once cache ----

  // For the job a core is working on, comparing addresses is as good as asking the hardware:
  // the cached address equals job->domain exactly when the core already translates through
  // that very domain, reused addresses notwithstanding.
  lemma CacheIsExact(s: State, c: nat, j: nat)
    requires Reachable(s) && c < |s.mmus| && j < |s.jobs| && s.jobs[j].st.Active?
    ensures JobDom(j) in s.domRefs.ptr && s.domRefs.ptr[JobDom(j)] in s.doms
    ensures s.mmus[c].attached == Some(s.domRefs.ptr[JobDom(j)])
       <==> s.mmus[c].hw == Some(s.doms[s.domRefs.ptr[JobDom(j)]].gen)
    ensures s.mmus[c].attached.Some? ==> s.mmus[c].attached.value in s.doms && InPool(s, s.mmus[c].attached.value)
    ensures s.mmus[c].attached.None? ==> s.mmus[c].hw.None?
  {
    hide R.Balanced, DomHolders, DomLinks, Spaces, OnlyOpen, BoRefs, JobRefs, CoresOk, Flights, PowerOk, History,
      GrantsOk, WellTyped;
    ReachableInv(s);
    RunProof.LiveJob(s, j);
    assert AttachOk(c, s.mmus[c], s.doms, s.domRefs.ptr, s.files);
  }

  // Whoever takes a free job_lock and finds a job in flight may use it: the scheduler still
  // references the job and its domain is allocated.
  lemma InFlightIsLive(s: State, c: nat)
    requires Reachable(s) && c < |s.cores| && s.cores[c].flight.Some? && s.cores[c].lock.Unlocked?
    ensures var j := s.cores[c].flight.value;
      && j < |s.jobs| && s.jobs[j].core == c && s.jobs[j].st.Active?
      && j in s.jobRefs.kref && Sched(j) in s.jobRefs.ptr && s.jobRefs.ptr[Sched(j)] == j
      && JobDom(j) in s.domRefs.ptr && s.domRefs.ptr[JobDom(j)] in s.doms
      && s.jobs[j].fence == s.cores[c].seqno && s.jobs[j].fence !in s.cores[c].signalled
  {
    hide R.Balanced, DomHolders, DomLinks, Gens, Spaces, OnlyOpen, BoRefs, Attached, Flights, PowerOk, History,
      GrantsOk, WellTyped;
    ReachableInv(s);
    var j := s.cores[c].flight.value;
    assert CoreOk(c, s.cores[c], s.jobs);
    assert JobOk(j, s.jobs[j], s.threads, s.jobRefs);
    RunProof.LiveJob(s, j);
  }

  // ---- power ----

  // Cores whose in-flight job still owns its power reference.
  function InFlight(cores: seq<Core>, k: nat): (r: set<nat>)
  {
    set c: nat | k <= c < |cores| && cores[c].flight.Some? && (cores[c].lock.Unlocked? || cores[c].lock.IrqSignalled?)
  }

  // Cores with a run past rocket_device_pm_get that is neither in flight nor undone yet.
  function PastGet(cores: seq<Core>, k: nat): (r: set<nat>)
  {
    set c: nat | k <= c < |cores| && (cores[c].run.Powered? || cores[c].run.Refused?)
  }

  lemma {:induction false} TotalIsCount(cores: seq<Core>, k: nat)
    requires k <= |cores|
    ensures Total(cores[k..]) == |InFlight(cores, k)| + |PastGet(cores, k)|
    decreases |cores| - k
  {
    if k == |cores| {
      assert InFlight(cores, k) == {} && PastGet(cores, k) == {};
    } else {
      TotalIsCount(cores, k + 1);
      assert cores[k..][1..] == cores[k + 1..];
      assert InFlight(cores, k) - {k} == InFlight(cores, k + 1);
      assert PastGet(cores, k) - {k} == PastGet(cores, k + 1);
    }
  }

  // pm_refcount is the number of cores with a job in flight plus the number of runs past
  // pm_get; every core's usage count is 1, plus 1 while that number is positive.
  lemma PowerLedger(s: State)
    requires Reachable(s)
    ensures s.pm.refs == |InFlight(s.cores, 0)| + |PastGet(s.cores, 0)|
    ensures forall k | 0 <= k < |s.pm.usage| :: s.pm.usage[k] == if s.pm.refs > 0 then 2 else 1
  {
    hide IoInv, CoresOk, Attached, Flights, History, WellTyped;
    ReachableInv(s);
    TotalIsCount(s.cores, 0);
    assert s.cores[0..] == s.cores;
  }

  // ---- what a finished SUBMIT leaves behind ----

  // The call holds nothing: no buffer reference, no mapping, no job reference.  Its job was
  // cleaned up if it never reached the scheduler, and otherwise lives exactly as long as the
  // scheduler's reference, uncleaned for exactly that long.
  lemma SubmitBalanced(s: State, t: nat)
    requires Reachable(s) && t < |s.threads| && s.threads[t].submit && s.threads[t].pc.Done?
    ensures Task(t) !in s.boRefs.ptr && t !in s.maps && Submitter(t) !in s.jobRefs.ptr
    ensures forall j | 0 <= j < |s.jobs| && s.jobs[j].submitter == t ::
      if s.jobs[j].st.Init? then !s.jobs[j].base.Ready? else s.jobs[j].base.Ready? <==> Sched(j) in s.jobRefs.ptr
  {
    hide R.Balanced, DomHolders, DomLinks, Gens, Spaces, OnlyOpen, CoresOk, Attached, Flights, PowerOk, History,
      GrantsOk, WellTyped;
    ReachableInv(s);
    forall j | 0 <= j < |s.jobs| && s.jobs[j].submitter == t
      ensures if s.jobs[j].st.Init? then !s.jobs[j].base.Ready?
              else s.jobs[j].base.Ready? <==> Sched(j) in s.jobRefs.ptr
    {
      assert JobOk(j, s.jobs[j], s.threads, s.jobRefs);
    }
  }

  // A job stays allocated exactly while its submitter or the scheduler holds it.
  lemma JobLedger(s: State, j: nat)
    requires Reachable(s) && j < |s.jobs|
    ensures j in s.jobRefs.kref <==>
      Sched(j) in s.jobRefs.ptr
      || (exists t :: 0 <= t < |s.threads| && Submitter(t) in s.jobRefs.ptr && s.jobRefs.ptr[Submitter(t)] == j)
    ensures j in s.jobRefs.kref ==> s.jobRefs.kref[j] <= 2
  {
    hide DomHolders, DomLinks, Gens, Spaces, OnlyOpen, BoRefs, CoresOk, Attached, Flights, PowerOk, History,
      GrantsOk, WellTyped;
    ReachableInv(s);
    var held := R.Holders(s.jobRefs.ptr, j);
    forall h | h in held ensures JobHolderOk(h, j, s.threads, s.jobs) {
    }
    if j in s.jobRefs.kref {
      assert held != {};
      var h :| h in held;
      forall g, h | g in held && h in held && g.Submitter? && h.Submitter? ensures g == h {
        assert SubmitOk(g.t, s.threads[g.t], s.jobs, s.jobRefs.ptr, s.domRefs.ptr);
        assert SubmitOk(h.t, s.threads[h.t], s.jobs, s.jobRefs.ptr, s.domRefs.ptr);
      }
      AtMostTwo(held, j);
    }
  }

  lemma AtMostTwo(held: set<JobHolder>, j: nat)
    requires forall h :: h in held && h.Sched? ==> h == Sched(j)
    requires forall g, h :: g in held && h in held && g.Submitter? && h.Submitter? ==> g == h
    ensures |held| <= 2
  {
    var rest := held - {Sched(j)};
    if rest != {} {
      var h :| h in rest;
      assert rest == {h};
    }
    assert held <= rest + {Sched(j)};
    SubsetSize(held, rest + {Sched(j)});
  }

  lemma {:induction false} SubsetSize(a: set<JobHolder>, b: set<JobHolder>)
    requires a <= b
    ensures |a| <= |b|
  {
    if a != {} {
      var x :| x in a;
      SubsetSize(a - {x}, b - {x});
    }
  }

  // A finished MEM_CREATE that reports success published its buffer; one that does not left no
  // trace of it: no reference, no domain pointer, no allocator node and no translation in any
  // page table.
  lemma MemCreateBalanced(s: State, t: nat)
    requires Reachable(s) && t < |s.threads| && !s.threads[t].submit && s.threads[t].pc.Done?
    ensures Maker(t) !in s.boRefs.ptr
    ensures var b := s.threads[t].bo;
      && b < |s.bos| && (s.threads[t].success <==> s.bos[b].published)
      && (s.bos[b].published || (b !in s.boRefs.kref && BoDom(b) !in s.domRefs.ptr && NoTrace(s, b)))
  {
    hide R.Balanced, DomLinks, Gens, OnlyOpen, JobRefs, CoresOk, Attached, Flights, PowerOk, History, GrantsOk,
      WellTyped, A.Ok;
    ReachableInv(s);
    var b := s.threads[t].bo;
    assert MakerOk(t, s.threads[t], s.bos, s.boRefs.ptr);
    assert BoOk(b, s.bos[b], s.threads, s.boRefs.kref);
    if !s.bos[b].published {
      forall a <- s.doms ensures b !in s.doms[a].space.nodes {
        assert forall d <- s.doms[a].space.nodes :: NodeOk(d, a, s.doms[a].space.nodes[d], s.domRefs.ptr, s.bos);
      }
      NoNodeNoTrace(s, b);
    }
  }

  ghost predicate NoTrace(s: State, b: nat) {
    forall a <- s.doms ::
      b !in s.doms[a].space.nodes && forall p <- s.doms[a].space.pt :: s.doms[a].space.pt[p].bo != b
  }

  lemma NoNodeNoTrace(s: State, b: nat)
    requires (forall a <- s.doms :: A.Ok(s.doms[a].space)) && (forall a <- s.doms :: b !in s.doms[a].space.nodes)
    ensures NoTrace(s, b)
  {
    forall a, p | a in s.doms && p in s.doms[a].space.pt ensures s.doms[a].space.pt[p].bo != b {
      assert A.Owns(s.doms[a].space, p);
    }
  }
}
