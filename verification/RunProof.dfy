/**
 Scheduler, interrupt and timeout steps keep the invariant.
 */
module RunProof {
  import opened Options
  import opened Machine
  import opened Invariants
  import R = Refs
  import P = Power

  // How a scheduler or core step may change a job.
  predicate Advances(a: Job, b: Job) {
    && b.file == a.file && b.idx == a.idx && b.core == a.core && b.tasks == a.tasks && b.submitter == a.submitter
    && b.base == a.base && (a.st == Init <==> b.st == Init)
    && (a.st == Finished ==> b.st == Finished)
  }

  ghost predicate JobsAdvance(a: seq<Job>, b: seq<Job>) {
    |a| == |b| && forall j | 0 <= j < |a| :: Advances(a[j], b[j])
  }

  lemma IoFrame(s: State, jobs: seq<Job>)
    requires Io(s) && JobsAdvance(s.jobs, jobs)
    ensures Io(s.(jobs := jobs))
  {
    hide R.Balanced, DomHolders, DomLinks, Gens, Spaces, OnlyOpen, BoRefs, JobRefs, GrantsOk;
    HoldersFrame(s, jobs);
    LinksFrame(s, jobs);
    OpenFrame(s, jobs);
    RefsFrame(s, jobs);
  }

  lemma HoldersFrame(s: State, jobs: seq<Job>)
    requires DomHolders(s.domRefs.ptr, s.files, s.threads, s.bos, s.jobs, s.jobRefs.kref) && JobsAdvance(s.jobs, jobs)
    ensures DomHolders(s.domRefs.ptr, s.files, s.threads, s.bos, jobs, s.jobRefs.kref)
  {
  }

  lemma LinksFrame(s: State, jobs: seq<Job>)
    requires DomLinks(s.domRefs.ptr, s.doms, s.files, s.threads, s.bos, s.jobs) && JobsAdvance(s.jobs, jobs)
    ensures DomLinks(s.domRefs.ptr, s.doms, s.files, s.threads, s.bos, jobs)
  {
  }

  lemma OpenFrame(s: State, jobs: seq<Job>)
    requires OnlyOpen(s.files, s.threads, s.bos, s.jobs) && JobsAdvance(s.jobs, jobs)
    requires JobRefs(s.threads, s.jobs, s.jobRefs, s.domRefs.ptr, s.maps)
    ensures OnlyOpen(s.files, s.threads, s.bos, jobs)
  {
  }

  lemma RefsFrame(s: State, jobs: seq<Job>)
    requires JobRefs(s.threads, s.jobs, s.jobRefs, s.domRefs.ptr, s.maps) && JobsAdvance(s.jobs, jobs)
    ensures JobRefs(s.threads, jobs, s.jobRefs, s.domRefs.ptr, s.maps)
  {
  }

  // What an active job can rely on.
  lemma LiveJob(s: State, j: nat)
    requires Io(s) && j < |s.jobs| && s.jobs[j].st == Active
    ensures JobLive(s, j)
    ensures InFile(s.files, s.jobs[j].file)
    ensures var a := s.domRefs.ptr[JobDom(j)];
      && s.doms[a].file == s.jobs[j].file && s.doms[a].idx == s.jobs[j].idx
      && Slot(s.jobs[j].file, s.jobs[j].idx) in s.domRefs.ptr
      && s.domRefs.ptr[Slot(s.jobs[j].file, s.jobs[j].idx)] == a
  {
    hide Spaces, BoRefs, Gens, GrantsOk;
    assert JobOk(j, s.jobs[j], s.threads, s.jobRefs);
    assert JobDom(j) in s.domRefs.ptr;
    assert LinkOk(JobDom(j), s.domRefs.ptr[JobDom(j)], s.domRefs.ptr, s.doms, s.files, s.threads, s.bos, s.jobs);
  }

  // ---- one core changes ----

  lemma CoresUpdate(cores: seq<Core>, jobs: seq<Job>, c: nat, core: Core, jobs2: seq<Job>)
    requires CoresOk(cores, jobs) && c < |cores| && CoreOk(c, core, jobs2)
    requires |jobs2| == |jobs|
    requires forall k | 0 <= k < |jobs| :: jobs2[k].core == jobs[k].core && jobs2[k].next <= jobs2[k].tasks
    requires forall k | 0 <= k < |jobs| :: jobs[k].core != c ==> jobs2[k] == jobs[k]
    requires forall k | 0 <= k < |jobs| :: jobs[k].core == c && jobs2[k].st == Active ==> core.slot == Some(k)
    ensures CoresOk(cores[c := core], jobs2)
  {
    var cores2 := cores[c := core];
    forall d | 0 <= d < |cores2| ensures CoreOk(d, cores2[d], jobs2) {
      assert CoreOk(d, cores[d], jobs);
    }
  }

  lemma TypedCore(s: State, c: nat, core: Core, jobs: seq<Job>, mmus: seq<Mmu>, pm: P.Unit)
    requires WellTyped(s) && c < |s.cores| && CoreTyped(|s.jobs|, core)
    requires |mmus| == |s.mmus| && |pm.usage| == |s.pm.usage|
    requires JobsAdvance(s.jobs, jobs)
    ensures WellTyped(s.(cores := s.cores[c := core], jobs := jobs, mmus := mmus, pm := pm))
  {
  }

  lemma Counted(s: State, c: nat, core: Core)
    requires PowerOk(s.pm, s.cores) && c < |s.cores|
    ensures Weight(core) == Weight(s.cores[c]) ==> PowerOk(s.pm, s.cores[c := core])
    ensures Weight(s.cores[c]) > 0 ==> s.pm.refs > 0
    ensures Weight(s.cores[c]) == Weight(core) + 1 ==> PowerOk(P.Put(s.pm), s.cores[c := core])
    ensures forall fail: nat :: P.GetOk(s.pm, fail) && Weight(core) == Weight(s.cores[c]) + 1 ==>
      PowerOk(P.Get(s.pm, fail), s.cores[c := core])
    ensures |P.Put(s.pm).usage| == |s.pm.usage|
    ensures forall fail: nat :: |P.Get(s.pm, fail).usage| == |s.pm.usage|
  {
    TotalUpdate(s.cores, c, core);
    P.UnitKept(s.pm, 0);
    forall fail: nat ensures P.Held(P.Get(s.pm, fail)) {
      P.UnitKept(s.pm, fail);
    }
  }

  // A step that replaces one core, changing neither jobs nor MMU state.
  lemma CoreOnly(s: State, c: nat, core: Core, pm: P.Unit)
    requires Inv(s) && c < |s.cores| && CoreTyped(|s.jobs|, core) && core.slot == s.cores[c].slot
    requires CoreOk(c, core, s.jobs) && FlightOk(core, s.mmus[c], s.domRefs.ptr)
    requires PowerOk(pm, s.cores[c := core]) && |pm.usage| == |s.pm.usage|
    ensures Inv(s.(cores := s.cores[c := core], pm := pm))
  {
    hide IoInv, WellTyped, Attached, PowerOk, History;
    assert CoresOk(s.cores[c := core], s.jobs) by {
      CoresUpdate(s.cores, s.jobs, c, core, s.jobs);
    }
    hide CoresOk;
    TypedCore(s, c, core, s.jobs, s.mmus, pm);
  }

  // ---- rocket_job_run ----

  lemma PowerKeeps(s: State, c: nat, fail: nat)
    requires Inv(s) && c < |s.cores| && s.cores[c].run.Fenced?
    ensures Inv(RunPower(s, c, fail))
  {
    hide IoInv, Attached, PowerOk, History;
    var s' := RunPower(s, c, fail);
    Counted(s, c, s'.cores[c]);
    CoreOnly(s, c, s'.cores[c], s'.pm);
  }

  lemma UnpowerKeeps(s: State, c: nat)
    requires Inv(s) && c < |s.cores| && s.cores[c].run.Refused?
    ensures Inv(RunUnpower(s, c))
  {
    hide IoInv, Attached, PowerOk, History;
    var core := s.cores[c].(run := Unpowered(s.cores[c].run.job));
    Counted(s, c, core);
    CoreOnly(s, c, core, P.Put(s.pm));
  }

  lemma FailKeeps(s: State, c: nat)
    requires Inv(s) && c < |s.cores| && s.cores[c].run.Unpowered?
    ensures Inv(RunFail(s, c))
  {
    hide IoInv, Attached, PowerOk, History;
    var s' := RunFail(s, c);
    assert CoreOk(c, s.cores[c], s.jobs);
    assert s'.cores == s.cores[c := s'.cores[c]];
    Counted(s, c, s'.cores[c]);
    CoreOnly(s, c, s'.cores[c], s.pm);
  }

  lemma {:induction false} LaunchCount(l: seq<Launch>, e: Launch, j: nat)
    ensures Launches(l + [e], j) == Launches(l, j) + if e.job == j then 1 else 0
  {
    assert (l + [e])[..|l|] == l;
  }

  lemma HistoryLaunch(l: seq<Launch>, jobs: seq<Job>, e: Launch)
    requires History(l, jobs) && e.job < |jobs|
    ensures History(l + [e], jobs[e.job := jobs[e.job].(next := jobs[e.job].next + 1)])
  {
    forall j: nat ensures Launches(l + [e], j) == Launches(l, j) + if e.job == j then 1 else 0 {
      LaunchCount(l, e, j);
    }
  }

  // A launch (or a launch skipped because a reset is pending) of core c's in-flight job.
  lemma SubmitKeeps(s: State, c: nat, j: nat)
    requires Inv(s) && c < |s.cores| && j < |s.jobs|
    requires s.cores[c].flight == Some(j) && s.cores[c].slot == Some(j) && s.cores[c].run.Idle?
    requires s.jobs[j].next < s.jobs[j].tasks
    ensures Inv(HwSubmit(s, c, j))
  {
    hide IoInv, Attached, PowerOk, Flights, History;
    var s' := HwSubmit(s, c, j);
    if !s.cores[c].resetPending {
      assert CoreOk(c, s.cores[c], s'.jobs);
      assert CoresOk(s.cores[c := s.cores[c]], s'.jobs) by {
        CoresUpdate(s.cores, s.jobs, c, s.cores[c], s'.jobs);
      }
      assert s.cores[c := s.cores[c]] == s.cores;
      hide CoresOk;
      IoFrame(s, s'.jobs);
      TypedCore(s, c, s.cores[c], s'.jobs, s.mmus, s.pm);
      HistoryLaunch(s.launches, s.jobs, Launch(c, j, s.mmus[c].hw));
    }
  }

  lemma AttachUpdate(s: State, c: nat, m: Mmu)
    requires Attached(s.mmus, s.doms, s.domRefs.ptr, s.files) && c < |s.mmus|
    requires AttachOk(c, m, s.doms, s.domRefs.ptr, s.files)
    ensures Attached(s.mmus[c := m], s.doms, s.domRefs.ptr, s.files)
  {
  }

  // The job_lock section of rocket_job_run up to the launch.
  lemma SectionAttach(s: State, c: nat, core: Core, m: Mmu)
    requires Inv(s) && c < |s.cores| && s.cores[c].run.Powered? && s.cores[c].lock.Unlocked?
    requires var j := s.cores[c].run.job;
      || (core == s.cores[c].(run := Refused(j)) && m == Mmu(None, None))
      || (JobLive(s, j) && core == s.cores[c].(flight := Some(j), run := Idle)
          && m == if !Attaches(s, c, j) then s.mmus[c]
                  else Mmu(Some(s.domRefs.ptr[JobDom(j)]), Some(s.doms[s.domRefs.ptr[JobDom(j)]].gen)))
    ensures Inv(s.(cores := s.cores[c := core], mmus := s.mmus[c := m]))
  {
    hide IoInv, PowerOk, History;
    var j := s.cores[c].run.job;
    LiveJob(s, j);
    Counted(s, c, core);
    assert CoresOk(s.cores[c := core], s.jobs) by {
      CoresUpdate(s.cores, s.jobs, c, core, s.jobs);
    }
    assert Attached(s.mmus[c := m], s.doms, s.domRefs.ptr, s.files) by {
      AttachUpdate(s, c, m);
    }
    hide CoresOk, Attached;
    TypedCore(s, c, core, s.jobs, s.mmus[c := m], s.pm);
  }

  lemma SectionKeeps(s: State, c: nat, attachErr: bool)
    requires Inv(s) && c < |s.cores| && s.cores[c].run.Powered? && s.cores[c].lock.Unlocked?
    requires attachErr ==> Attaches(s, c, s.cores[c].run.job)
    ensures Inv(RunSection(s, c, attachErr))
  {
    hide IoInv, Attached, PowerOk, Flights, History;
    var j := s.cores[c].run.job;
    assert CoreOk(c, s.cores[c], s.jobs);
    LiveJob(s, j);
    var a := s.domRefs.ptr[JobDom(j)];
    if attachErr {
      SectionAttach(s, c, s.cores[c].(run := Refused(j)), Mmu(None, None));
    } else {
      var core := s.cores[c].(flight := Some(j), run := Idle);
      var m := if !Attaches(s, c, j) then s.mmus[c] else Mmu(Some(a), Some(s.doms[a].gen));
      SectionAttach(s, c, core, m);
      var s1 := s.(cores := s.cores[c := core], mmus := s.mmus[c := m]);
      SubmitKeeps(s1, c, j);
      assert RunSection(s, c, attachErr) == HwSubmit(s1, c, j);
    }
  }

  // ---- rocket_job_handle_irq ----

  lemma IrqKeeps(s: State, c: nat)
    requires Inv(s) && c < |s.cores| && s.cores[c].lock.Unlocked?
    ensures Inv(Irq(s, c))
  {
    hide IoInv, Attached, PowerOk, Flights, History;
    var core := s.cores[c];
    assert CoreOk(c, core, s.jobs);
    if core.flight.Some? {
      var j := core.flight.value;
      LiveJob(s, j);
      if s.jobs[j].next < s.jobs[j].tasks {
        SubmitKeeps(s, c, j);
      } else {
        var core2 := core.(signalled := core.signalled + {s.jobs[j].fence}, lock := IrqSignalled);
        Counted(s, c, core2);
        CoreOnly(s, c, core2, s.pm);
        assert Irq(s, c) == s.(cores := s.cores[c := core2], pm := s.pm);
      }
    }
  }

  lemma IrqPowerKeeps(s: State, c: nat)
    requires Inv(s) && c < |s.cores| && s.cores[c].lock.IrqSignalled?
    ensures Inv(IrqPower(s, c))
  {
    hide IoInv, Attached, PowerOk, Flights, History;
    var core := s.cores[c].(lock := IrqReleased);
    assert CoreOk(c, s.cores[c], s.jobs);
    Counted(s, c, core);
    CoreOnly(s, c, core, P.Put(s.pm));
  }

  lemma IrqClearKeeps(s: State, c: nat)
    requires Inv(s) && c < |s.cores| && s.cores[c].lock.IrqReleased?
    ensures Inv(IrqClear(s, c))
  {
    hide IoInv, Attached, PowerOk, Flights, History;
    var core := s.cores[c].(lock := Unlocked, flight := None);
    assert CoreOk(c, s.cores[c], s.jobs);
    Counted(s, c, core);
    CoreOnly(s, c, core, s.pm);
  }

  // ---- rocket_job_timedout and rocket_reset ----

  lemma TimeoutKeeps(s: State, c: nat, j: nat)
    requires Inv(s) && c < |s.cores| && s.cores[c].reset.Quiet? && j < |s.jobs| && s.jobs[j].core == c
    ensures Inv(Timeout(s, c, j))
  {
    hide IoInv, Attached, PowerOk, History;
    var core := s.cores[c].(reset := Pending(j), resetPending := true);
    assert CoreOk(c, s.cores[c], s.jobs);
    Counted(s, c, core);
    CoreOnly(s, c, core, s.pm);
  }

  lemma StopKeeps(s: State, c: nat)
    requires Inv(s) && c < |s.cores| && s.cores[c].reset.Pending? && s.cores[c].run.Idle?
    ensures Inv(ResetStop(s, c))
  {
    hide IoInv, Attached, PowerOk, History;
    var core := s.cores[c].(reset := Stopped(s.cores[c].reset.job));
    assert CoreOk(c, s.cores[c], s.jobs);
    Counted(s, c, core);
    CoreOnly(s, c, core, s.pm);
  }

  lemma ResetPowerKeeps(s: State, c: nat)
    requires Inv(s) && c < |s.cores| && s.cores[c].reset.Stopped? && s.cores[c].lock.Unlocked?
    ensures Inv(ResetPower(s, c))
  {
    hide IoInv, Attached, PowerOk, History;
    var core := s.cores[c].(lock := ResetEntered);
    assert CoreOk(c, s.cores[c], s.jobs);
    Counted(s, c, core);
    CoreOnly(s, c, core, if s.cores[c].flight.Some? then P.Put(s.pm) else s.pm);
  }

  lemma DetachKeeps(s: State, c: nat)
    requires Inv(s) && c < |s.cores| && s.cores[c].lock.ResetEntered?
    ensures Inv(ResetDetach(s, c))
  {
    hide IoInv, PowerOk, History;
    var core := s.cores[c].(lock := ResetDetached);
    var s' := ResetDetach(s, c);
    assert CoreOk(c, s.cores[c], s.jobs);
    Counted(s, c, core);
    assert CoresOk(s'.cores, s.jobs) by {
      CoresUpdate(s.cores, s.jobs, c, core, s.jobs);
    }
    hide CoresOk;
    AttachUpdate(s, c, s'.mmus[c]);
    assert s.mmus[c := s'.mmus[c]] == s'.mmus;
    hide Attached;
    TypedCore(s, c, core, s.jobs, s'.mmus, s.pm);
  }

  lemma ClearKeeps(s: State, c: nat)
    requires Inv(s) && c < |s.cores| && s.cores[c].reset.Stopped? && s.cores[c].lock.ResetDetached?
    ensures Inv(ResetClear(s, c))
  {
    hide IoInv, Attached, PowerOk, History;
    var s' := ResetClear(s, c);
    assert CoreOk(c, s.cores[c], s.jobs);
    Counted(s, c, s'.cores[c]);
    CoreOnly(s, c, s'.cores[c], s.pm);
  }

  lemma ResumeKeeps(s: State, c: nat)
    requires Inv(s) && c < |s.cores| && s.cores[c].reset.Cleared?
    ensures Inv(ResetResume(s, c))
  {
    hide IoInv, Attached, PowerOk, History;
    var s' := ResetResume(s, c);
    assert CoreOk(c, s.cores[c], s.jobs);
    Counted(s, c, s'.cores[c]);
    CoreOnly(s, c, s'.cores[c], s.pm);
  }

  // A step that changes one core and one of that core's jobs.
  lemma CoreAndJob(s: State, c: nat, core: Core, j: nat, job: Job)
    requires Inv(s) && c < |s.cores| && j < |s.jobs| && CoreTyped(|s.jobs|, core)
    requires s.jobs[j].core == c && Advances(s.jobs[j], job) && job.next == s.jobs[j].next
    requires Weight(core) == Weight(s.cores[c])
    requires CoreOk(c, core, s.jobs[j := job]) && FlightOk(core, s.mmus[c], s.domRefs.ptr)
    requires forall k | 0 <= k < |s.jobs| ::
      s.jobs[k].core == c && (if k == j then job.st else s.jobs[k].st) == Active ==> core.slot == Some(k)
    ensures Inv(s.(cores := s.cores[c := core], jobs := s.jobs[j := job]))
  {
    hide IoInv, Attached, PowerOk, History;
    var jobs := s.jobs[j := job];
    CoresUpdate(s.cores, s.jobs, c, core, jobs);
    hide CoresOk;
    Counted(s, c, core);
    IoFrame(s, jobs);
    TypedCore(s, c, core, jobs, s.mmus, s.pm);
    assert History(s.launches, jobs) by {
      HistoryFrame(s.launches, s.jobs, jobs);
    }
  }

  lemma HistoryFrame(l: seq<Launch>, jobs: seq<Job>, jobs2: seq<Job>)
    requires History(l, jobs) && |jobs2| == |jobs|
    requires forall j | 0 <= j < |jobs| :: jobs2[j].next == jobs[j].next
    ensures History(l, jobs2)
  {
  }

  lemma RestartKeeps(s: State, c: nat, requeue: bool)
    requires Inv(s) && c < |s.cores| && s.cores[c].reset.Resumable?
    ensures Inv(Restart(s, c, requeue))
  {
    hide IoInv, Attached, PowerOk, History;
    var core := s.cores[c].(slot := None, reset := Restarted(s.cores[c].reset.job));
    assert CoreOk(c, s.cores[c], s.jobs);
    if s.cores[c].slot.None? {
      Counted(s, c, core);
      CoreOnly(s, c, core, s.pm);
    } else {
      var j := s.cores[c].slot.value;
      CoreAndJob(s, c, core, j, Restart(s, c, requeue).jobs[j]);
    }
  }

  lemma CountKeeps(s: State, c: nat)
    requires Inv(s) && c < |s.cores| && s.cores[c].reset.Restarted?
    ensures Inv(CountTimeout(s, c))
  {
    hide IoInv, Attached, PowerOk, History;
    var j := s.cores[c].reset.job;
    assert CoreOk(c, s.cores[c], s.jobs);
    CoreAndJob(s, c, s.cores[c].(reset := Quiet), j, CountTimeout(s, c).jobs[j]);
  }

  // ---- scheduler ----

  lemma FinishKeeps(s: State, j: nat, exit: Exit)
    requires Inv(s) && j < |s.jobs|
    requires
      || s.jobs[j].st == Queued
      || JobEnabled(s, j, Complete)
    ensures Inv(FinishJob(s, j, exit))
  {
    hide IoInv, Attached, PowerOk, History;
    var c := s.jobs[j].core;
    assert CoreOk(c, s.cores[c], s.jobs);
    var core := if s.cores[c].slot == Some(j) then s.cores[c].(slot := None) else s.cores[c];
    CoreAndJob(s, c, core, j, s.jobs[j].(st := Finished, exit := exit));
    assert s.cores[c := s.cores[c]] == s.cores;
  }

  lemma BeginKeeps(s: State, j: nat)
    requires Inv(s) && j < |s.jobs| && JobEnabled(s, j, Begin)
    ensures Inv(RunBegin(s, j))
  {
    hide IoInv, Attached, PowerOk, History;
    var c := s.jobs[j].core;
    assert CoreOk(c, s.cores[c], s.jobs);
    var q := s.cores[c].seqno + 1;
    CoreAndJob(s, c, s.cores[c].(run := Fenced(j), slot := Some(j), seqno := q),
               j, s.jobs[j].(st := Active, fence := q));
  }
}
