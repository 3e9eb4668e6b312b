/**
 SUBMIT, rocket_job_free and rocket_job_cleanup keep the invariant.
 */
module SubmitProof {
  import opened Options
  import opened Machine
  import opened Invariants
  import opened IoProof
  import opened GetProof
  import opened MemProof
  import opened RunProof
  import R = Refs

  // ---- the task buffer's mapping ----

  lemma MapRefs(s: State, t: nat, th: Thread, maps: set<nat>)
    requires JobRefs(s.threads, s.jobs, s.jobRefs, s.domRefs.ptr, s.maps) && t < |s.threads|
    requires SameThread(s.threads[t], th) && th.submit && th.job == s.threads[t].job
    requires SubmitOk(t, th, s.jobs, s.jobRefs.ptr, s.domRefs.ptr)
    requires !HoldsJob(th.pc) && !HoldsJob(s.threads[t].pc)
    requires maps == if HasMap(th.pc) then s.maps + {t} else s.maps - {t}
    ensures JobRefs(s.threads[t := th], s.jobs, s.jobRefs, s.domRefs.ptr, maps)
  {
    var threads2 := s.threads[t := th];
    forall h <- s.jobRefs.ptr ensures JobHolderOk(h, s.jobRefs.ptr[h], threads2, s.jobs) {
      assert JobHolderOk(h, s.jobRefs.ptr[h], s.threads, s.jobs);
    }
    forall j | 0 <= j < |s.jobs| ensures JobOk(j, s.jobs[j], threads2, s.jobRefs) {
      assert JobOk(j, s.jobs[j], s.threads, s.jobRefs);
    }
  }

  lemma MapsKeeps(s: State, t: nat, pc: Pc)
    requires Inv(s) && t < |s.threads| && s.threads[t].submit
    requires (s.threads[t].pc.Vmap? && pc.Alloc?) || (s.threads[t].pc.Vunmap? && pc.PutTask?)
    ensures Inv(Goto(s, t, pc).(maps := if pc.Alloc? then s.maps + {t} else s.maps - {t}))
  {
    hide R.Balanced, DomHolders, DomLinks, Gens, Spaces, OnlyOpen, BoRefs, JobRefs, CoresOk, Attached, Flights, PowerOk,
      History, GrantsOk, WellTyped;
    SelfOk(s, t);
    var th := s.threads[t].(pc := pc);
    var maps := if pc.Alloc? then s.maps + {t} else s.maps - {t};
    MapRefs(s, t, th, maps);
    ThreadIds(s, t, th);
    BoRefsThread(s.threads, s.bos, s.boRefs, t, th);
    TypedFrame(SetThread(s, t, th), SetThread(s, t, th).(maps := maps));
  }

  // ---- one job changes, outside the scheduler's hands ----

  ghost predicate Untouched(a: Job, b: Job) {
    && b.file == a.file && b.idx == a.idx && b.core == a.core && b.tasks == a.tasks && b.submitter == a.submitter
    && b.next == a.next && !a.st.Active? && !b.st.Active?
  }

  lemma JobCores(s: State, j: nat, job: Job)
    requires CoresOk(s.cores, s.jobs) && History(s.launches, s.jobs) && j < |s.jobs| && Untouched(s.jobs[j], job)
    ensures CoresOk(s.cores, s.jobs[j := job]) && History(s.launches, s.jobs[j := job])
  {
    var jobs2 := s.jobs[j := job];
    forall c | 0 <= c < |s.cores| ensures CoreOk(c, s.cores[c], jobs2) {
      assert CoreOk(c, s.cores[c], s.jobs);
    }
  }

  lemma JobLinks(s: State, j: nat, job: Job)
    requires DomLinks(s.domRefs.ptr, s.doms, s.files, s.threads, s.bos, s.jobs) && WellTyped(s)
    requires j < |s.jobs| && Untouched(s.jobs[j], job)
    ensures DomLinks(s.domRefs.ptr, s.doms, s.files, s.threads, s.bos, s.jobs[j := job])
    ensures WellTyped(SetJob(s, j, job))
  {
    var jobs2 := s.jobs[j := job];
    forall h <- s.domRefs.ptr
      ensures LinkOk(h, s.domRefs.ptr[h], s.domRefs.ptr, s.doms, s.files, s.threads, s.bos, jobs2)
    {
      assert LinkOk(h, s.domRefs.ptr[h], s.domRefs.ptr, s.doms, s.files, s.threads, s.bos, s.jobs);
    }
  }

  lemma JobHolders(s: State, j: nat, job: Job)
    requires DomHolders(s.domRefs.ptr, s.files, s.threads, s.bos, s.jobs, s.jobRefs.kref)
    requires OnlyOpen(s.files, s.threads, s.bos, s.jobs)
    requires j < |s.jobs| && (!job.st.Init? && j in s.jobRefs.kref ==> JobDom(j) in s.domRefs.ptr)
    requires job.st.Queued? || job.st.Active? ==> InFile(s.files, job.file)
    ensures DomHolders(s.domRefs.ptr, s.files, s.threads, s.bos, s.jobs[j := job], s.jobRefs.kref)
    ensures OnlyOpen(s.files, s.threads, s.bos, s.jobs[j := job])
  {
  }

  // A submit thread and its job move on together.
  lemma ThreadJobKeeps(s: State, t: nat, th: Thread, job: Job)
    requires Inv(s) && t < |s.threads| && th.submit && SameThread(s.threads[t], th) && ThreadTyped(s, th)
    requires !HasCand(th.pc) && !HasCand(s.threads[t].pc) && !s.threads[t].pc.Done? && !th.pc.Done?
    requires th.job.Some? && th.job.value < |s.jobs| && Untouched(s.jobs[th.job.value], job)
    requires job.st.Init? && s.jobs[th.job.value].st.Init?
    requires JobRefs(s.threads[t := th], s.jobs[th.job.value := job], s.jobRefs, s.domRefs.ptr, s.maps)
    ensures Inv(SetJob(SetThread(s, t, th), th.job.value, job))
  {
    hide R.Balanced, DomHolders, DomLinks, Gens, Spaces, OnlyOpen, BoRefs, JobRefs, CoresOk, Attached, Flights, PowerOk,
      History, GrantsOk, WellTyped;
    var j := th.job.value;
    BoRefsThread(s.threads, s.bos, s.boRefs, t, th);
    ThreadIds(s, t, th);
    var s1 := SetThread(s, t, th);
    JobHolders(s1, j, job);
    JobLinks(s1, j, job);
    JobCores(s, j, job);
  }

  // ---- drm_sched_job_init and drm_sched_job_cleanup by the submitter ----

  lemma BaseRefs(s: State, t: nat, th: Thread, base: Base)
    requires JobRefs(s.threads, s.jobs, s.jobRefs, s.domRefs.ptr, s.maps) && t < |s.threads|
    requires SubmitOk(t, s.threads[t], s.jobs, s.jobRefs.ptr, s.domRefs.ptr) && s.threads[t].submit
    requires (s.threads[t].pc.InitJob? && base.Ready? && th == s.threads[t].(pc := Lookup))
      || (s.threads[t].pc.Cleanup? && base.Clean? && th == s.threads[t].(pc := PutJob))
    ensures th.job.Some? && th.job.value < |s.jobs| && s.jobs[th.job.value].st.Init?
    ensures var j := th.job.value;
      JobRefs(s.threads[t := th], s.jobs[j := s.jobs[j].(base := base)], s.jobRefs, s.domRefs.ptr, s.maps)
  {
    var j := th.job.value;
    var threads2, jobs2 := s.threads[t := th], s.jobs[j := s.jobs[j].(base := base)];
    forall h <- s.jobRefs.ptr ensures JobHolderOk(h, s.jobRefs.ptr[h], threads2, jobs2) {
      assert JobHolderOk(h, s.jobRefs.ptr[h], s.threads, s.jobs);
    }
    forall u | 0 <= u < |threads2| && threads2[u].submit
      ensures SubmitOk(u, threads2[u], jobs2, s.jobRefs.ptr, s.domRefs.ptr)
    {
      assert SubmitOk(u, s.threads[u], s.jobs, s.jobRefs.ptr, s.domRefs.ptr);
    }
    forall k | 0 <= k < |jobs2| ensures JobOk(k, jobs2[k], threads2, s.jobRefs) {
      assert JobOk(k, s.jobs[k], s.threads, s.jobRefs);
    }
  }

  lemma InitKeeps(s: State, t: nat, ok: bool)
    requires Inv(s) && t < |s.threads| && s.threads[t].submit && s.threads[t].pc.InitJob? && s.threads[t].job.Some?
    ensures Inv(InitStep(s, t, ok))
  {
    hide IoInv, CoresOk, Attached, Flights, PowerOk, History, WellTyped;
    SelfOk(s, t);
    if ok {
      var th := s.threads[t].(pc := Lookup);
      SubmitRefs(s);
      BaseRefs(s, t, th, Ready);
      ThreadJobKeeps(s, t, th, s.jobs[th.job.value].(base := Ready));
    } else {
      GotoKeeps(s, t, PutJob);
    }
  }

  lemma SubmitRefs(s: State)
    requires Inv(s)
    ensures JobRefs(s.threads, s.jobs, s.jobRefs, s.domRefs.ptr, s.maps) && R.Balanced(s.jobRefs)
  {
    hide R.Balanced, DomHolders, DomLinks, Gens, Spaces, OnlyOpen, BoRefs, JobRefs, CoresOk, Attached, Flights, PowerOk,
      History, GrantsOk, WellTyped;
  }

  lemma CleanupKeeps(s: State, t: nat)
    requires Inv(s) && t < |s.threads| && s.threads[t].submit && s.threads[t].pc.Cleanup? && s.threads[t].job.Some?
    ensures Inv(CleanupStep(s, t))
  {
    hide IoInv, CoresOk, Attached, Flights, PowerOk, History, WellTyped, JobRefs;
    SelfOk(s, t);
    var th := s.threads[t].(pc := PutJob);
    SubmitRefs(s);
    BaseRefs(s, t, th, Clean);
    var job := s.jobs[th.job.value].(base := Clean);
    ThreadJobKeeps(s, t, th, job);
    assert CleanupStep(s, t) == s.(threads := s.threads[t := th], jobs := s.jobs[th.job.value := job]);
  }

  // ---- a job is allocated ----

  lemma NoLaunches(l: seq<Launch>, j: nat)
    requires forall k | 0 <= k < |l| :: l[k].job != j
    ensures Launches(l, j) == 0
  {
  }

  lemma AllocCores(s: State, job: Job)
    requires CoresOk(s.cores, s.jobs) && History(s.launches, s.jobs)
    requires job.st.Init? && job.next == 0
    ensures CoresOk(s.cores, s.jobs + [job]) && History(s.launches, s.jobs + [job])
  {
    NoLaunches(s.launches, |s.jobs|);
    var jobs2 := s.jobs + [job];
    forall c | 0 <= c < |s.cores| ensures CoreOk(c, s.cores[c], jobs2) {
      assert CoreOk(c, s.cores[c], s.jobs);
    }
  }

  lemma AllocIds(s: State, job: Job, kref: map<nat, nat>)
    requires WellTyped(s) && JobTyped(s, job) && job.st.Init? && OnlyOpen(s.files, s.threads, s.bos, s.jobs)
    requires DomHolders(s.domRefs.ptr, s.files, s.threads, s.bos, s.jobs, s.jobRefs.kref)
    requires kref == s.jobRefs.kref[|s.jobs| := 1] && |s.jobs| !in s.jobRefs.kref
    ensures WellTyped(s.(jobs := s.jobs + [job]))
    ensures OnlyOpen(s.files, s.threads, s.bos, s.jobs + [job])
    ensures DomHolders(s.domRefs.ptr, s.files, s.threads, s.bos, s.jobs + [job], kref)
  {
  }

  lemma AllocLinks(s: State, job: Job)
    requires DomLinks(s.domRefs.ptr, s.doms, s.files, s.threads, s.bos, s.jobs)
    ensures DomLinks(s.domRefs.ptr, s.doms, s.files, s.threads, s.bos, s.jobs + [job])
  {
    var jobs2 := s.jobs + [job];
    forall h <- s.domRefs.ptr
      ensures LinkOk(h, s.domRefs.ptr[h], s.domRefs.ptr, s.doms, s.files, s.threads, s.bos, jobs2)
    {
      assert LinkOk(h, s.domRefs.ptr[h], s.domRefs.ptr, s.doms, s.files, s.threads, s.bos, s.jobs);
    }
  }

  lemma AllocRefs(s: State, t: nat, th: Thread, job: Job)
    requires JobRefs(s.threads, s.jobs, s.jobRefs, s.domRefs.ptr, s.maps) && t < |s.threads|
    requires s.threads[t].submit && s.threads[t].pc.Alloc? && th == s.threads[t].(pc := InitJob, job := Some(|s.jobs|))
    requires job == Job(th.file, th.idx, th.core, th.tasks, 0, 0, false, Init, Raw, 0, Inside, t)
    requires JobDom(|s.jobs|) !in s.domRefs.ptr
    ensures Submitter(t) !in s.jobRefs.ptr && |s.jobs| !in s.jobRefs.kref
    ensures JobRefs(s.threads[t := th], s.jobs + [job], R.New(s.jobRefs, Submitter(t), |s.jobs|), s.domRefs.ptr, s.maps)
  {
    var threads2, jobs2, refs2 := s.threads[t := th], s.jobs + [job], R.New(s.jobRefs, Submitter(t), |s.jobs|);
    assert SubmitOk(t, s.threads[t], s.jobs, s.jobRefs.ptr, s.domRefs.ptr);
    assert Submitter(t) in s.jobRefs.ptr ==> JobHolderOk(Submitter(t), s.jobRefs.ptr[Submitter(t)], s.threads, s.jobs);
    forall h <- refs2.ptr ensures JobHolderOk(h, refs2.ptr[h], threads2, jobs2) {
      if h != Submitter(t) {
        assert JobHolderOk(h, s.jobRefs.ptr[h], s.threads, s.jobs);
      }
    }
    forall u | 0 <= u < |threads2| && threads2[u].submit
      ensures SubmitOk(u, threads2[u], jobs2, refs2.ptr, s.domRefs.ptr)
    {
      assert SubmitOk(u, s.threads[u], s.jobs, s.jobRefs.ptr, s.domRefs.ptr);
    }
    forall k | 0 <= k < |jobs2| ensures JobOk(k, jobs2[k], threads2, refs2) {
      if k < |s.jobs| {
        assert JobOk(k, s.jobs[k], s.threads, s.jobRefs);
      }
    }
  }

  lemma NoJobDom(s: State, j: nat)
    requires DomHolders(s.domRefs.ptr, s.files, s.threads, s.bos, s.jobs, s.jobRefs.kref) && j >= |s.jobs|
    ensures JobDom(j) !in s.domRefs.ptr
  {
    assert JobDom(j) in s.domRefs.ptr ==>
      DomHolderOk(JobDom(j), s.files, s.threads, s.bos, s.jobs, s.jobRefs.kref);
  }

  lemma AllocKeeps(s: State, t: nat, ok: bool)
    requires Inv(s) && t < |s.threads| && s.threads[t].submit && s.threads[t].pc.Alloc?
    ensures Inv(AllocStep(s, t, ok))
  {
    hide R.Balanced, DomHolders, DomLinks, Gens, Spaces, OnlyOpen, BoRefs, JobRefs, CoresOk, Attached, Flights, PowerOk,
      History, GrantsOk, WellTyped;
    SelfOk(s, t);
    if !ok {
      GotoKeeps(s, t, Vunmap);
    } else {
      var j := |s.jobs|;
      var th := s.threads[t].(pc := InitJob, job := Some(j));
      var job := Job(th.file, th.idx, th.core, th.tasks, 0, 0, false, Init, Raw, 0, Inside, t);
      NoJobDom(s, j);
      AllocRefs(s, t, th, job);
      R.NewBalanced(s.jobRefs, Submitter(t), j);
      BoRefsThread(s.threads, s.bos, s.boRefs, t, th);
      ThreadIds(s, t, s.threads[t].(pc := Vunmap));
      var s1 := Goto(s, t, Vunmap);
      AllocIds(s1, job, R.New(s.jobRefs, Submitter(t), j).kref);
      AllocLinks(s1, job);
      AllocCores(s, job);
      var s2 := s1.(jobs := s.jobs + [job], jobRefs := R.New(s.jobRefs, Submitter(t), j));
      TypedFrame(s1.(jobs := s.jobs + [job]), s2);
      ThreadIdsOf(s2, t, th);
      assert s1.threads[t := th] == s.threads[t := th];
    }
  }

  // ---- rocket_job_push ----

  lemma PushRefs(s: State, t: nat, th: Thread)
    requires JobRefs(s.threads, s.jobs, s.jobRefs, s.domRefs.ptr, s.maps) && t < |s.threads|
    requires s.threads[t].submit && s.threads[t].pc.Push? && th == s.threads[t].(pc := Wait) && th.job.Some?
    requires th.job.value < |s.jobs| && th.job.value in s.jobRefs.kref
    ensures var j := th.job.value;
      && Sched(j) !in s.jobRefs.ptr && s.jobs[j].st.Init?
      && JobRefs(s.threads[t := th], s.jobs[j := s.jobs[j].(st := Queued)], R.Get(s.jobRefs, Sched(j), j),
                 s.domRefs.ptr, s.maps)
  {
    var j := th.job.value;
    var threads2, jobs2, refs2 :=
      s.threads[t := th], s.jobs[j := s.jobs[j].(st := Queued)], R.Get(s.jobRefs, Sched(j), j);
    assert SubmitOk(t, s.threads[t], s.jobs, s.jobRefs.ptr, s.domRefs.ptr);
    assert Sched(j) in s.jobRefs.ptr ==> JobHolderOk(Sched(j), s.jobRefs.ptr[Sched(j)], s.threads, s.jobs);
    forall h <- refs2.ptr ensures JobHolderOk(h, refs2.ptr[h], threads2, jobs2) {
      if h != Sched(j) {
        assert JobHolderOk(h, s.jobRefs.ptr[h], s.threads, s.jobs);
      }
    }
    forall u | 0 <= u < |threads2| && threads2[u].submit
      ensures SubmitOk(u, threads2[u], jobs2, refs2.ptr, s.domRefs.ptr)
    {
      assert SubmitOk(u, s.threads[u], s.jobs, s.jobRefs.ptr, s.domRefs.ptr);
    }
    forall k | 0 <= k < |jobs2| ensures JobOk(k, jobs2[k], threads2, refs2) {
      assert JobOk(k, s.jobs[k], s.threads, s.jobRefs);
    }
  }

  lemma PushReady(s: State, t: nat)
    requires Inv(s) && t < |s.threads| && s.threads[t].submit && s.threads[t].pc.Push?
    ensures s.threads[t].job.Some? && s.threads[t].job.value < |s.jobs| && s.threads[t].job.value in s.jobRefs.kref
    ensures JobDom(s.threads[t].job.value) in s.domRefs.ptr && InFile(s.files, s.threads[t].file)
    ensures s.jobs[s.threads[t].job.value].file == s.threads[t].file
  {
    hide R.Balanced, DomHolders, DomLinks, Gens, Spaces, BoRefs, JobRefs, CoresOk, Attached, Flights, PowerOk,
      History, GrantsOk, WellTyped;
    SelfOk(s, t);
    R.HolderLive(s.jobRefs, Submitter(t));
  }

  lemma PushKeeps(s: State, t: nat, ok: bool)
    requires Inv(s) && t < |s.threads| && s.threads[t].submit && s.threads[t].pc.Push? && s.threads[t].job.Some?
    ensures Inv(PushStep(s, t, ok))
  {
    hide R.Balanced, DomHolders, DomLinks, Gens, Spaces, OnlyOpen, BoRefs, JobRefs, CoresOk, Attached, Flights, PowerOk,
      History, GrantsOk, WellTyped;
    if !ok {
      GotoKeeps(s, t, Cleanup);
    } else {
      SelfOk(s, t);
      PushReady(s, t);
      var j := s.threads[t].job.value;
      var th := s.threads[t].(pc := Wait);
      var job := s.jobs[j].(st := Queued);
      PushRefs(s, t, th);
      R.GetBalanced(s.jobRefs, Sched(j), j);
      BoRefsThread(s.threads, s.bos, s.boRefs, t, th);
      ThreadIds(s, t, th);
      var s1 := SetThread(s, t, th);
      JobHolders(s1, j, job);
      JobLinks(s1, j, job);
      JobCores(s, j, job);
      HoldersKref(SetJob(s1, j, job), R.Get(s.jobRefs, Sched(j), j).kref);
      TypedFrame(SetJob(s1, j, job), PushStep(s, t, ok));
    }
  }

  lemma HoldersKref(s: State, kref: map<nat, nat>)
    requires DomHolders(s.domRefs.ptr, s.files, s.threads, s.bos, s.jobs, s.jobRefs.kref)
    requires kref.Keys == s.jobRefs.kref.Keys
    ensures DomHolders(s.domRefs.ptr, s.files, s.threads, s.bos, s.jobs, kref)
  {
    forall j: nat ensures j in kref <==> j in s.jobRefs.kref {
      assert j in kref <==> j in kref.Keys;
    }
  }

  // ---- the wait ----

  lemma WaitKeeps(s: State, t: nat, done: bool)
    requires Inv(s) && t < |s.threads| && s.threads[t].submit && s.threads[t].pc.Wait? && s.threads[t].job.Some?
    requires done ==> CanAdvance(s, t, true, 0)
    ensures Inv(if done then WaitDone(s, t) else WaitExpire(s, t))
  {
    hide IoInv, CoresOk, Attached, Flights, PowerOk, History, WellTyped;
    SelfOk(s, t);
    var th := s.threads[t];
    ThreadKeeps(s, t, if done then th.(pc := PutJob, counter := th.number, success := true)
                      else th.(pc := PutJob, counter := 0));
  }

  // ---- rocket_job_put and rocket_job_cleanup ----

  // Does the put through h run rocket_job_cleanup on a job that has a domain?
  predicate Releases(s: State, h: JobHolder)
    requires h in s.jobRefs.ptr && s.jobRefs.ptr[h] in s.jobRefs.kref
  {
    R.IsLast(s.jobRefs, h) && JobDom(s.jobRefs.ptr[h]) in s.domRefs.ptr
  }

  // The two shapes of a job put.
  ghost predicate JobDropped(s: State, s': State, h: JobHolder)
    requires h in s.jobRefs.ptr && s.jobRefs.ptr[h] in s.jobRefs.kref
  {
    var s1 := s.(jobRefs := R.Put(s.jobRefs, h));
    && R.Balanced(s1.jobRefs)
    && (if Releases(s, h) then Dropped(s1, s', JobDom(s.jobRefs.ptr[h])) else s' == s1)
  }

  lemma DropJobOk(s: State, h: JobHolder)
    requires R.Balanced(s.domRefs) && R.Balanced(s.jobRefs) && s.domRefs.kref.Keys == s.doms.Keys
    requires h in s.jobRefs.ptr && s.jobRefs.ptr[h] in s.jobRefs.kref && s.jobRefs.ptr[h] < |s.jobs|
    requires R.IsLast(s.jobRefs, h) ==> !s.jobs[s.jobRefs.ptr[h]].base.Ready?
    requires Gens(s.doms, s.gen) && Attached(s.mmus, s.doms, s.domRefs.ptr, s.files)
    ensures JobDropped(s, DropJob(s, h), h)
  {
    hide R.Balanced, Gens, Attached;
    R.PutBalanced(s.jobRefs, h);
    if Releases(s, h) {
      DropDomOk(s.(jobRefs := R.Put(s.jobRefs, h)), JobDom(s.jobRefs.ptr[h]));
      assert s.faults + When(false, BaseMisuse) == s.faults;
    }
  }

  // All groups that do not look at the job table.
  lemma DroppedJobGroups(s: State, s': State, h: JobHolder)
    requires h in s.jobRefs.ptr && s.jobRefs.ptr[h] in s.jobRefs.kref && JobDropped(s, s', h)
    requires s.jobRefs.ptr[h] < |s.jobs| && (R.IsLast(s.jobRefs, h) ==> !s.jobs[s.jobRefs.ptr[h]].st.Active?)
    requires R.Balanced(s.domRefs) && s.domRefs.kref.Keys == s.doms.Keys && WellTyped(s)
    requires DomHolders(s.domRefs.ptr, s.files, s.threads, s.bos, s.jobs, s.jobRefs.kref)
    requires DomLinks(s.domRefs.ptr, s.doms, s.files, s.threads, s.bos, s.jobs) && Gens(s.doms, s.gen)
    requires Spaces(s.lo, s.hi, s.doms, s.domRefs.ptr, s.bos)
    requires GrantsOk(s.grants, s.files, s.domRefs.ptr, s.doms)
    requires Attached(s.mmus, s.doms, s.domRefs.ptr, s.files)
    requires Flights(s.cores, s.mmus, s.domRefs.ptr) && CoresOk(s.cores, s.jobs)
    ensures R.Balanced(s'.domRefs) && s'.domRefs.kref.Keys == s'.doms.Keys && WellTyped(s')
    ensures DomHolders(s'.domRefs.ptr, s'.files, s'.threads, s'.bos, s'.jobs, s'.jobRefs.kref)
    ensures DomLinks(s'.domRefs.ptr, s'.doms, s'.files, s'.threads, s'.bos, s'.jobs) && Gens(s'.doms, s'.gen)
    ensures Spaces(s'.lo, s'.hi, s'.doms, s'.domRefs.ptr, s'.bos)
    ensures GrantsOk(s'.grants, s'.files, s'.domRefs.ptr, s'.doms)
    ensures Attached(s'.mmus, s'.doms, s'.domRefs.ptr, s'.files)
    ensures Flights(s'.cores, s'.mmus, s'.domRefs.ptr)
  {
    hide R.Balanced, DomHolders, DomLinks, Gens, Spaces, CoresOk, Attached, Flights, GrantsOk, WellTyped;
    var s1 := s.(jobRefs := R.Put(s.jobRefs, h));
    var d := JobDom(s.jobRefs.ptr[h]);
    DroppedJobHolders(s, s', h);
    TypedFrame(s, s1);
    if Releases(s, h) {
      DroppedLinks(s1, s', d);
      DroppedSpaces(s1, s', d);
      DroppedRest(s1, s', d);
      DroppedFlights(s1, s', d);
      DroppedTyped(s1, s', d);
    }
  }

  lemma DroppedJobHolders(s: State, s': State, h: JobHolder)
    requires h in s.jobRefs.ptr && s.jobRefs.ptr[h] in s.jobRefs.kref && JobDropped(s, s', h)
    requires DomHolders(s.domRefs.ptr, s.files, s.threads, s.bos, s.jobs, s.jobRefs.kref)
    ensures DomHolders(s'.domRefs.ptr, s'.files, s'.threads, s'.bos, s'.jobs, s'.jobRefs.kref)
  {
    hide R.Balanced;
    forall g <- s'.domRefs.ptr
      ensures DomHolderOk(g, s'.files, s'.threads, s'.bos, s'.jobs, s'.jobRefs.kref)
    {
      assert DomHolderOk(g, s.files, s.threads, s.bos, s.jobs, s.jobRefs.kref);
    }
  }

  // The submitter's reference goes; its thread moves to Vunmap.
  lemma PutJobRefs(s: State, t: nat, ptr: map<DomHolder, nat>)
    requires JobRefs(s.threads, s.jobs, s.jobRefs, s.domRefs.ptr, s.maps) && t < |s.threads|
    requires s.threads[t].submit && s.threads[t].pc.PutJob? && s.threads[t].job.Some?
    requires var h := Submitter(t); h in s.jobRefs.ptr && s.jobRefs.ptr[h] in s.jobRefs.kref
    requires forall g <- s.jobRefs.ptr :: s.jobRefs.ptr[g] in s.jobRefs.kref
    requires forall k: nat :: k != s.jobRefs.ptr[Submitter(t)] ==> (JobDom(k) in ptr <==> JobDom(k) in s.domRefs.ptr)
    ensures JobRefs(s.threads[t := s.threads[t].(pc := Vunmap)], s.jobs, R.Put(s.jobRefs, Submitter(t)), ptr, s.maps)
  {
    var threads2, refs2 := s.threads[t := s.threads[t].(pc := Vunmap)], R.Put(s.jobRefs, Submitter(t));
    assert SubmitOk(t, s.threads[t], s.jobs, s.jobRefs.ptr, s.domRefs.ptr);
    forall h <- refs2.ptr ensures JobHolderOk(h, refs2.ptr[h], threads2, s.jobs) {
      assert JobHolderOk(h, s.jobRefs.ptr[h], s.threads, s.jobs);
    }
    forall u | 0 <= u < |threads2| && threads2[u].submit ensures SubmitOk(u, threads2[u], s.jobs, refs2.ptr, ptr) {
      assert SubmitOk(u, s.threads[u], s.jobs, s.jobRefs.ptr, s.domRefs.ptr);
    }
    forall k | 0 <= k < |s.jobs| ensures JobOk(k, s.jobs[k], threads2, refs2) {
      assert JobOk(k, s.jobs[k], s.threads, s.jobRefs);
    }
  }

  // An active job is still the scheduler's, so the submitter is not its last holder.
  lemma NotLast(s: State, t: nat)
    requires JobRefs(s.threads, s.jobs, s.jobRefs, s.domRefs.ptr, s.maps) && R.Balanced(s.jobRefs)
    requires t < |s.threads| && s.threads[t].submit && s.threads[t].pc.PutJob?
    ensures var h := Submitter(t);
      h in s.jobRefs.ptr && s.jobRefs.ptr[h] in s.jobRefs.kref && s.jobRefs.ptr[h] < |s.jobs|
    ensures var j := s.jobRefs.ptr[Submitter(t)];
      && (R.IsLast(s.jobRefs, Submitter(t)) ==> !s.jobs[j].st.Active? && !s.jobs[j].base.Ready?)
  {
    hide R.Balanced;
    assert SubmitOk(t, s.threads[t], s.jobs, s.jobRefs.ptr, s.domRefs.ptr);
    R.HolderLive(s.jobRefs, Submitter(t));
    R.PutBalanced(s.jobRefs, Submitter(t));
    var j := s.jobRefs.ptr[Submitter(t)];
    assert JobOk(j, s.jobs[j], s.threads, s.jobRefs);
    if Sched(j) in s.jobRefs.ptr {
      assert JobHolderOk(Sched(j), s.jobRefs.ptr[Sched(j)], s.threads, s.jobs);
    }
  }

  lemma PutJobKeeps(s: State, t: nat)
    requires Inv(s) && t < |s.threads| && s.threads[t].submit && s.threads[t].pc.PutJob?
    ensures Inv(PutJobStep(s, t))
  {
    hide R.Balanced, DomHolders, DomLinks, Gens, Spaces, OnlyOpen, BoRefs, JobRefs, CoresOk, Attached, Flights, PowerOk,
      History, GrantsOk, WellTyped;
    SelfOk(s, t);
    NotLast(s, t);
    var h := Submitter(t);
    var s1 := DropJob(s, h);
    DropJobOk(s, h);
    DroppedJobGroups(s, s1, h);
    var th := s.threads[t].(pc := Vunmap);
    BoRefsThread(s.threads, s.bos, s.boRefs, t, th);
    assert JobRefs(s.threads[t := th], s.jobs, s1.jobRefs, s1.domRefs.ptr, s.maps) by {
      HoldersLive(s.jobRefs);
      PutJobRefs(s, t, s1.domRefs.ptr);
    }
    ThreadIdsOf(s1, t, th);
  }

  lemma HoldersLive(r: R.Refs<JobHolder, nat>)
    requires R.Balanced(r)
    ensures forall g <- r.ptr :: r.ptr[g] in r.kref
  {
  }

  // rocket_job_free: the scheduler's reference goes, after drm_sched_job_cleanup.
  lemma FreeRefs(s: State, j: nat, ptr: map<DomHolder, nat>)
    requires JobRefs(s.threads, s.jobs, s.jobRefs, s.domRefs.ptr, s.maps)
    requires j < |s.jobs| && s.jobs[j].st.Finished? && Sched(j) in s.jobRefs.ptr
    requires forall g <- s.jobRefs.ptr :: s.jobRefs.ptr[g] in s.jobRefs.kref
    requires forall k: nat :: k != j ==> (JobDom(k) in ptr <==> JobDom(k) in s.domRefs.ptr)
    ensures s.jobRefs.ptr[Sched(j)] == j
    ensures JobRefs(s.threads, s.jobs[j := s.jobs[j].(base := Clean)], R.Put(s.jobRefs, Sched(j)), ptr, s.maps)
  {
    assert JobHolderOk(Sched(j), s.jobRefs.ptr[Sched(j)], s.threads, s.jobs);
    var jobs2, refs2 := s.jobs[j := s.jobs[j].(base := Clean)], R.Put(s.jobRefs, Sched(j));
    forall h <- refs2.ptr ensures JobHolderOk(h, refs2.ptr[h], s.threads, jobs2) {
      assert JobHolderOk(h, s.jobRefs.ptr[h], s.threads, s.jobs);
    }
    forall u | 0 <= u < |s.threads| && s.threads[u].submit ensures SubmitOk(u, s.threads[u], jobs2, refs2.ptr, ptr) {
      assert SubmitOk(u, s.threads[u], s.jobs, s.jobRefs.ptr, s.domRefs.ptr);
    }
    forall k | 0 <= k < |jobs2| ensures JobOk(k, jobs2[k], s.threads, refs2) {
      assert JobOk(k, s.jobs[k], s.threads, s.jobRefs);
    }
  }

  lemma FreeReady(s: State, j: nat)
    requires JobRefs(s.threads, s.jobs, s.jobRefs, s.domRefs.ptr, s.maps)
    requires DomHolders(s.domRefs.ptr, s.files, s.threads, s.bos, s.jobs, s.jobRefs.kref)
    requires j < |s.jobs| && s.jobs[j].st.Finished? && Sched(j) in s.jobRefs.ptr
    requires s.jobRefs.ptr[Sched(j)] in s.jobRefs.kref
    ensures s.jobs[j].base.Ready? && s.jobRefs.ptr[Sched(j)] == j && JobDom(j) in s.domRefs.ptr
  {
    assert JobHolderOk(Sched(j), s.jobRefs.ptr[Sched(j)], s.threads, s.jobs);
    assert JobOk(j, s.jobs[j], s.threads, s.jobRefs);
  }

  lemma SchedFreeKeeps(s: State, j: nat)
    requires Inv(s) && j < |s.jobs| && s.jobs[j].st.Finished? && Sched(j) in s.jobRefs.ptr
    ensures Inv(SchedFree(s, j))
  {
    hide R.Balanced, DomHolders, DomLinks, Gens, Spaces, OnlyOpen, BoRefs, JobRefs, CoresOk, Attached, Flights, PowerOk,
      History, GrantsOk, WellTyped;
    var h := Sched(j);
    HoldersLive(s.jobRefs);
    FreeReady(s, j);
    var job := s.jobs[j].(base := Clean);
    var s0 := SetJob(s, j, job);
    assert CleanBase(s, j) == s0;
    JobHolders(s, j, job);
    JobLinks(s, j, job);
    JobCores(s, j, job);
    var s1 := DropJob(s0, h);
    DropJobOk(s0, h);
    DroppedJobGroups(s0, s1, h);
    assert JobRefs(s.threads, s0.jobs, s1.jobRefs, s1.domRefs.ptr, s.maps) by {
      FreeRefs(s, j, s1.domRefs.ptr);
    }
  }
}
