/**
 What a successful SUBMIT says about the hardware: how the job left its scheduler decides
 whether it was executed.
 */
module Outcomes {
  import opened Options
  import opened Machine
  import opened Invariants
  import opened Runs
  import opened Jobs
  import Frames
  import Launching
  import R = Refs

  // The exits of a job whose fence an interrupt had signalled by the time it left.
  predicate ByInterrupt(exit: Exit) {
    exit.Completion? || ((exit.Skipped? || exit.Cancelled?) && exit.late)
  }

  ghost predicate OutcomeOk(job: Job, cores: seq<Core>) {
    && job.core < |cores|
    && (job.st.Active? ==> 0 < job.fence)
    && (job.st.Finished? <==> !job.exit.Inside?)
    && (Interrupted(job, cores) ==> job.next == job.tasks)
    && (job.st.Finished? ==> (Interrupted(job, cores) <==> ByInterrupt(job.exit)))
  }

  ghost predicate OutcomesOk(jobs: seq<Job>, cores: seq<Core>) {
    forall j | 0 <= j < |jobs| :: OutcomeOk(jobs[j], cores)
  }

  // A change that leaves the outcome alone.
  predicate SameOutcome(a: Job, b: Job) {
    && b.core == a.core && b.fence == a.fence && b.next == a.next && b.tasks == a.tasks && b.exit == a.exit
    && (b.st.Finished? <==> a.st.Finished?) && (b.st.Active? ==> a.st.Active?)
  }

  predicate SameFences(a: seq<Core>, b: seq<Core>) {
    |a| == |b| && forall c | 0 <= c < |a| :: b[c].signalled == a[c].signalled && b[c].failed == a[c].failed
  }

  predicate Fresh(job: Job, cores: nat) {
    job.core < cores && job.fence == 0 && job.st.Init? && job.exit.Inside?
  }

  lemma OutcomesFrame(jobs: seq<Job>, cores: seq<Core>, jobs2: seq<Job>, cores2: seq<Core>)
    requires OutcomesOk(jobs, cores) && |jobs| <= |jobs2| && SameFences(cores, cores2)
    requires forall j | 0 <= j < |jobs| :: SameOutcome(jobs[j], jobs2[j])
    requires forall j | |jobs| <= j < |jobs2| :: Fresh(jobs2[j], |cores|)
    ensures OutcomesOk(jobs2, cores2)
  {
    forall j | 0 <= j < |jobs2| ensures OutcomeOk(jobs2[j], cores2) {
      if j < |jobs| {
        assert OutcomeOk(jobs[j], cores);
      }
    }
  }

  // ---- ioctl steps ----

  ghost predicate Untouched(s: State, s': State) {
    && |s.jobs| <= |s'.jobs| && SameFences(s.cores, s'.cores)
    && (forall j | 0 <= j < |s.jobs| :: SameOutcome(s.jobs[j], s'.jobs[j]))
    && (forall j | |s.jobs| <= j < |s'.jobs| :: Fresh(s'.jobs[j], |s.cores|))
  }

  lemma UntouchedOk(s: State, s': State)
    requires OutcomesOk(s.jobs, s.cores) && Untouched(s, s')
    ensures OutcomesOk(s'.jobs, s'.cores)
  {
    OutcomesFrame(s.jobs, s.cores, s'.jobs, s'.cores);
  }

  lemma SameUntouched(s: State, s': State)
    requires s'.jobs == s.jobs && s'.cores == s.cores
    ensures Untouched(s, s')
  {
  }

  lemma SetupUntouched(s: State, t: nat, ok: bool, arg: nat)
    requires WellTyped(s) && t < |s.threads|
    requires s.threads[t].pc.Vmap? || s.threads[t].pc.Alloc? || s.threads[t].pc.InitJob?
    ensures Untouched(s, AdvanceThread(s, t, ok, arg))
  {
    assert ThreadTyped(s, s.threads[t]);
    hide WellTyped;
  }

  lemma PushUntouched(s: State, t: nat, ok: bool, arg: nat)
    requires WellTyped(s) && t < |s.threads| && (s.threads[t].pc.Push? || s.threads[t].pc.Wait?)
    requires var th := s.threads[t];
      th.pc.Push? ==> th.job.Some? && th.job.value < |s.jobs| && s.jobs[th.job.value].st.Init?
    ensures Untouched(s, AdvanceThread(s, t, ok, arg))
  {
    hide WellTyped;
  }

  lemma EndUntouched(s: State, t: nat, ok: bool, arg: nat)
    requires WellTyped(s) && t < |s.threads|
    requires var pc := s.threads[t].pc; pc.Cleanup? || pc.PutJob? || pc.Vunmap? || pc.PutTask? || pc.Done?
    ensures Untouched(s, AdvanceThread(s, t, ok, arg))
  {
    assert ThreadTyped(s, s.threads[t]);
    hide WellTyped, DropJob;
    Frames.DropJobQuiet(s, Submitter(t));
  }

  lemma AdvanceUntouched(s: State, t: nat, ok: bool, arg: nat)
    requires Inv(s) && WellTyped(s) && t < |s.threads|
    ensures Untouched(s, AdvanceThread(s, t, ok, arg))
  {
    hide Inv, WellTyped, AdvanceThread, Untouched;
    ThreadKind(s, t);
    var s' := AdvanceThread(s, t, ok, arg);
    var pc := s.threads[t].pc;
    if pc.Lookup? || pc.Create? || pc.Install? || pc.Discard? {
      Frames.GetQuiet(s, t, ok, arg);
      SameUntouched(s, s');
    } else if !s.threads[t].submit {
      Frames.MakeQuiet(s, t, ok, arg);
      SameUntouched(s, s');
    } else if pc.Push? || pc.Wait? {
      if pc.Push? {
        PushIsInit(s, t);
      }
      PushUntouched(s, t, ok, arg);
    } else if pc.Vmap? || pc.Alloc? || pc.InitJob? {
      SetupUntouched(s, t, ok, arg);
    } else {
      EndUntouched(s, t, ok, arg);
    }
  }

  lemma AdvanceOutcomes(s: State, t: nat, ok: bool, arg: nat)
    requires Inv(s) && WellTyped(s) && t < |s.threads| && OutcomesOk(s.jobs, s.cores)
    ensures var s' := AdvanceThread(s, t, ok, arg); OutcomesOk(s'.jobs, s'.cores)
  {
    hide Inv, WellTyped, AdvanceThread, Untouched, OutcomesOk;
    AdvanceUntouched(s, t, ok, arg);
    UntouchedOk(s, AdvanceThread(s, t, ok, arg));
  }

  lemma PushIsInit(s: State, t: nat)
    requires Inv(s) && t < |s.threads| && s.threads[t].submit && s.threads[t].pc.Push?
    ensures s.threads[t].job.Some? && s.threads[t].job.value < |s.jobs| && s.jobs[s.threads[t].job.value].st.Init?
  {
    hide R.Balanced, DomHolders, DomLinks, Gens, Spaces, OnlyOpen, BoRefs, CoresOk, Attached, Flights, PowerOk, History,
      GrantsOk, WellTyped;
    assert SubmitOk(t, s.threads[t], s.jobs, s.jobRefs.ptr, s.domRefs.ptr);
  }

  // ---- scheduler steps ----

  // One job leaves, for the reason its fence gives.
  lemma FinishOutcomes(s: State, j: nat, exit: Exit)
    requires WellTyped(s) && OutcomesOk(s.jobs, s.cores) && j < |s.jobs| && !exit.Inside?
    requires ByInterrupt(exit) <==> Interrupted(s.jobs[j], s.cores)
    ensures var s' := FinishJob(s, j, exit); OutcomesOk(s'.jobs, s'.cores)
  {
    assert JobTyped(s, s.jobs[j]);
    hide WellTyped;
    var s' := FinishJob(s, j, exit);
    forall k | 0 <= k < |s'.jobs| ensures OutcomeOk(s'.jobs[k], s'.cores) {
      assert OutcomeOk(s.jobs[k], s.cores);
    }
  }

  lemma BeginOutcomes(s: State, j: nat)
    requires WellTyped(s) && OutcomesOk(s.jobs, s.cores) && j < |s.jobs| && s.jobs[j].st.Queued?
    requires s.cores[s.jobs[j].core].seqno + 1 !in s.cores[s.jobs[j].core].signalled
    ensures var s' := RunBegin(s, j); OutcomesOk(s'.jobs, s'.cores)
  {
    assert JobTyped(s, s.jobs[j]);
    hide WellTyped;
    var s' := RunBegin(s, j);
    forall k | 0 <= k < |s'.jobs| ensures OutcomeOk(s'.jobs[k], s'.cores) {
      assert OutcomeOk(s.jobs[k], s.cores);
    }
  }

  lemma FreeUntouched(s: State, j: nat)
    requires j < |s.jobs|
    ensures Untouched(s, SchedFree(s, j))
  {
    hide DropJob;
    Frames.DropJobQuiet(CleanBase(s, j), Sched(j));
  }

  // What the scheduler's steps know about the job they take up or let go.
  lemma JobFacts(s: State, j: nat, op: JobOp)
    requires Inv(s) && WellTyped(s) && j < |s.jobs| && JobEnabled(s, j, op)
    ensures var core := s.cores[s.jobs[j].core];
      && (op.Begin? ==> s.jobs[j].st.Queued? && core.seqno + 1 !in core.signalled)
      && (op.Complete? ==> s.jobs[j].st.Active? && s.jobs[j].fence in core.signalled)
  {
    hide IoInv, Attached, Flights, PowerOk, History;
    assert CoreOk(s.jobs[j].core, s.cores[s.jobs[j].core], s.jobs);
  }

  lemma JobOutcomes(s: State, j: nat, op: JobOp)
    requires WellTyped(s) && j < |s.jobs| && JobEnabled(s, j, op) && OutcomesOk(s.jobs, s.cores) && Inv(s)
    ensures var s' := JobApply(s, j, op); OutcomesOk(s'.jobs, s'.cores)
  {
    hide Inv, WellTyped, FinishJob, RunBegin, SchedFree, JobEnabled;
    JobFacts(s, j, op);
    assert OutcomeOk(s.jobs[j], s.cores);
    hide OutcomesOk;
    match op {
      case Skip => FinishOutcomes(s, j, Skipped(Interrupted(s.jobs[j], s.cores)));
      case Begin => BeginOutcomes(s, j);
      case Complete =>
        FinishOutcomes(s, j, if s.jobs[j].fence in s.cores[s.jobs[j].core].failed then Refusal else Completion);
      case Free =>
        FreeUntouched(s, j);
        UntouchedOk(s, SchedFree(s, j));
    }
  }

  // ---- core steps ----

  // Core c signals q, perhaps with an error: no other job has that fence.
  lemma SignalOutcomes(jobs: seq<Job>, cores: seq<Core>, c: nat, core: Core, j: nat)
    requires OutcomesOk(jobs, cores) && FencesOk(jobs, cores) && c < |cores| && j < |jobs| && jobs[j].core == c
    requires !jobs[j].st.Finished?
    requires core.signalled == cores[c].signalled + {jobs[j].fence}
    requires core.failed == cores[c].failed || core.failed == cores[c].failed + {jobs[j].fence}
    requires jobs[j].fence in core.failed || jobs[j].next == jobs[j].tasks
    ensures OutcomesOk(jobs, cores[c := core])
  {
    var cores2 := cores[c := core];
    forall k | 0 <= k < |jobs| ensures OutcomeOk(jobs[k], cores2) {
      assert OutcomeOk(jobs[k], cores);
      if jobs[k].core == c && jobs[k].fence == jobs[j].fence && k != j {
        assert jobs[k].fence == 0;
      }
    }
  }

  // Job j is launched once more: its fence is still unsignalled.
  lemma LaunchOutcomes(s: State, c: nat, j: nat)
    requires OutcomesOk(s.jobs, s.cores) && c < |s.cores| && c < |s.mmus| && j < |s.jobs|
    requires !Interrupted(s.jobs[j], s.cores)
    ensures var s' := HwSubmit(s, c, j); OutcomesOk(s'.jobs, s'.cores)
  {
    var s' := HwSubmit(s, c, j);
    forall k | 0 <= k < |s'.jobs| ensures OutcomeOk(s'.jobs[k], s'.cores) {
      assert OutcomeOk(s.jobs[k], s.cores);
    }
  }

  lemma CoreFacts(s: State, c: nat)
    requires Inv(s) && c < |s.cores|
    ensures WellTyped(s) && c < |s.mmus| && CoreOk(c, s.cores[c], s.jobs) && CoreTyped(|s.jobs|, s.cores[c])
    ensures forall j | 0 <= j < |s.jobs| :: s.jobs[j].next <= s.jobs[j].tasks
    ensures |s.cores| == |s.mmus|
  {
    hide IoInv, Attached, Flights, PowerOk, History, CoreOk;
  }

  lemma SectionOutcomes(s: State, c: nat, attachErr: bool)
    requires WellTyped(s) && c < |s.cores| == |s.mmus| && s.cores[c].run.Powered? && s.cores[c].lock.Unlocked?
    requires OutcomesOk(s.jobs, s.cores) && CoreOk(c, s.cores[c], s.jobs)
    ensures var s' := RunSection(s, c, attachErr); OutcomesOk(s'.jobs, s'.cores)
  {
    hide WellTyped, HwSubmit, OutcomesOk;
    var j := s.cores[c].run.job;
    var s' := RunSection(s, c, attachErr);
    if !JobLive(s, j) {
    } else if attachErr {
      SameFencesOk(s.jobs, s.cores, s'.cores);
    } else {
      SectionLaunch(s, c);
      var s1 := BeforeSubmit(s, c);
      SameFencesOk(s.jobs, s.cores, s1.cores);
      LaunchOutcomes(s1, c, j);
    }
  }

  // The state in which the run section starts the hardware.
  ghost function BeforeSubmit(s: State, c: nat): State
    requires c < |s.cores| == |s.mmus| && !s.cores[c].run.Idle? && JobLive(s, s.cores[c].run.job)
  {
    var j := s.cores[c].run.job;
    var a := s.domRefs.ptr[JobDom(j)];
    var mmu := if !Attaches(s, c, j) then s.mmus[c] else Mmu(Some(a), Some(s.doms[a].gen));
    Raise(SetCore(s.(mmus := s.mmus[c := mmu]), c, s.cores[c].(flight := Some(j), run := Idle)),
          s.cores[c].flight.Some?, PowerLeak)
  }

  lemma SectionLaunch(s: State, c: nat)
    requires WellTyped(s) && c < |s.cores| == |s.mmus| && !s.cores[c].run.Idle? && JobLive(s, s.cores[c].run.job)
    requires s.cores[c].run.job < |s.jobs|
    ensures RunSection(s, c, false) == HwSubmit(BeforeSubmit(s, c), c, s.cores[c].run.job)
  {
    hide WellTyped, HwSubmit;
  }

  lemma SameFencesOk(jobs: seq<Job>, cores: seq<Core>, cores2: seq<Core>)
    requires OutcomesOk(jobs, cores) && SameFences(cores, cores2)
    ensures OutcomesOk(jobs, cores2)
  {
    OutcomesFrame(jobs, cores, jobs, cores2);
  }

  lemma IrqOutcomes(s: State, c: nat)
    requires WellTyped(s) && c < |s.cores| == |s.mmus| && s.cores[c].lock.Unlocked?
    requires OutcomesOk(s.jobs, s.cores) && FencesOk(s.jobs, s.cores) && CoreOk(c, s.cores[c], s.jobs)
    requires forall j | 0 <= j < |s.jobs| :: s.jobs[j].next <= s.jobs[j].tasks
    ensures var s' := Irq(s, c); OutcomesOk(s'.jobs, s'.cores)
  {
    hide WellTyped, HwSubmit, OutcomesOk, FencesOk;
    if s.cores[c].flight.Some? {
      var j := s.cores[c].flight.value;
      var s' := Irq(s, c);
      if !JobLive(s, j) {
      } else if s.jobs[j].next < s.jobs[j].tasks {
        LaunchOutcomes(s, c, j);
      } else {
        SignalOutcomes(s.jobs, s.cores, c, s'.cores[c], j);
        assert s'.cores == s.cores[c := s'.cores[c]];
      }
    }
  }

  lemma FailOutcomes(s: State, c: nat)
    requires WellTyped(s) && c < |s.cores| && s.cores[c].run.Unpowered?
    requires OutcomesOk(s.jobs, s.cores) && FencesOk(s.jobs, s.cores) && CoreOk(c, s.cores[c], s.jobs)
    ensures var s' := RunFail(s, c); OutcomesOk(s'.jobs, s'.cores)
  {
    hide WellTyped, OutcomesOk, FencesOk;
    var s' := RunFail(s, c);
    SignalOutcomes(s.jobs, s.cores, c, s'.cores[c], s.cores[c].run.job);
    assert s'.cores == s.cores[c := s'.cores[c]];
  }

  lemma RestartOutcomes(s: State, c: nat, requeue: bool)
    requires WellTyped(s) && c < |s.cores| && s.cores[c].reset.Resumable?
    requires OutcomesOk(s.jobs, s.cores) && CoreOk(c, s.cores[c], s.jobs)
    ensures var s' := Restart(s, c, requeue); OutcomesOk(s'.jobs, s'.cores)
  {
    hide WellTyped;
    var s' := Restart(s, c, requeue);
    forall k | 0 <= k < |s'.jobs| ensures OutcomeOk(s'.jobs[k], s'.cores) {
      assert OutcomeOk(s.jobs[k], s.cores);
    }
  }

  lemma OtherCoreOutcomes(s: State, c: nat, op: CoreOp)
    requires WellTyped(s) && c < |s.cores| && CoreEnabled(s, c, op) && OutcomesOk(s.jobs, s.cores)
    requires !op.Section? && !op.Interrupt? && !op.Fail? && !op.StartSched?
    ensures var s' := CoreApply(s, c, op); OutcomesOk(s'.jobs, s'.cores)
  {
    assert CoreTyped(|s.jobs|, s.cores[c]);
    hide WellTyped, OutcomesOk;
    var s' := CoreApply(s, c, op);
    OutcomesFrame(s.jobs, s.cores, s'.jobs, s'.cores);
  }

  lemma CoreOutcomes(s: State, c: nat, op: CoreOp)
    requires Inv(s) && WellTyped(s) && c < |s.cores| && CoreEnabled(s, c, op)
    requires OutcomesOk(s.jobs, s.cores) && FencesOk(s.jobs, s.cores)
    ensures var s' := CoreApply(s, c, op); OutcomesOk(s'.jobs, s'.cores)
  {
    hide Inv, WellTyped, OutcomesOk, FencesOk, CoreOk, RunSection, Irq, RunFail, Restart;
    CoreFacts(s, c);
    match op {
      case Section(attachErr) => SectionOutcomes(s, c, attachErr);
      case Interrupt => IrqOutcomes(s, c);
      case Fail => FailOutcomes(s, c);
      case StartSched(requeue) => RestartOutcomes(s, c, requeue);
      case _ => OtherCoreOutcomes(s, c, op);
    }
  }

  // ---- every step, every run ----

  lemma StepOutcomes(s: State, st: Step)
    requires Inv(s) && WellTyped(s) && Owned(s) && Enabled(s, st) && OutcomesOk(s.jobs, s.cores)
    ensures var s' := Apply(s, st); OutcomesOk(s'.jobs, s'.cores)
  {
    assert FencesOk(s.jobs, s.cores);
    hide Inv, WellTyped, Owned, OutcomesOk, FencesOk, AdvanceThread, CanAdvance, BoApply, BoEnabled, JobApply,
      JobEnabled, CoreApply, CoreEnabled, FileApply, FileEnabled;
    match st {
      case Advance(t, ok, arg) => AdvanceOutcomes(s, t, ok, arg);
      case OnFile(f, op) => Launching.FileQuiet(s, f, op);
      case OnBo(b, op) => Frames.BoQuiet(s, b, op);
      case OnJob(j, op) => JobOutcomes(s, j, op);
      case OnCore(c, op) => CoreOutcomes(s, c, op);
      case _ =>
    }
  }

  lemma {:induction false} RunOutcomes(s: State, steps: seq<Step>)
    requires Inv(s) && Owned(s) && OutcomesOk(s.jobs, s.cores) && ValidRun(s, steps)
    ensures OutcomesOk(After(s, steps).jobs, After(s, steps).cores)
    decreases |steps|
  {
    hide Inv, Owned, OutcomesOk, WellTyped, Enabled, Apply;
    if steps != [] {
      StepKeeps(s, steps[0]);
      OwnedKeeps(s, steps[0]);
      StepOutcomes(s, steps[0]);
      RunOutcomes(Apply(s, steps[0]), steps[1..]);
    }
  }

  // In every run: a job whose submit has reported success was launched for every one of its
  // tasks and completed by an interrupt if and only if it left the scheduler that way.  A job
  // that was skipped, cancelled or refused an attach before any such interrupt reports the
  // same success without having been executed.
  lemma SuccessMeansExecuted(s: State, steps: seq<Step>, j: nat)
    requires Initial(s) && s.policy.AttachOnce? && ValidRun(s, steps)
    requires var e := After(s, steps);
      j < |e.jobs| && e.jobs[j].submitter < |e.threads| && e.threads[e.jobs[j].submitter].success
    ensures var e := After(s, steps);
      Launches(e.launches, j) == e.jobs[j].tasks && Interrupted(e.jobs[j], e.cores) <==> ByInterrupt(e.jobs[j].exit)
  {
    hide IoInv, CoresOk, Attached, Flights, PowerOk, WellTyped, Enabled, Apply, ValidRun;
    InitiallyOk(s);
    Reached(s, steps);
    RunOutcomes(s, steps);
    var e := After(s, steps);
    assert OwnedJob(j, e.jobs[j], e.threads) && OutcomeOk(e.jobs[j], e.cores);
    assert Launches(e.launches, j) == e.jobs[j].next;
  }

  // ---- how jobs leave ----

  // Which steps let a job leave its scheduler, and what they record.
  ghost predicate LeavesBy(s: State, st: Step, j: nat, exit: Exit)
    requires WellTyped(s) && j < |s.jobs|
  {
    match exit
    case Inside => false
    case Skipped(late) => st == OnJob(j, Skip)
    case Cancelled(late) => st.OnCore? && st.cop == StartSched(false) && s.jobs[j].core == st.c
    case Refusal => st == OnJob(j, Complete) && s.jobs[j].fence in s.cores[s.jobs[j].core].failed
    case Completion => st == OnJob(j, Complete) && s.jobs[j].fence !in s.cores[s.jobs[j].core].failed
  }

  // A job's exit is recorded by the step that lets it leave, and says which one it was.
  lemma HowJobsLeave(s: State, st: Step, j: nat)
    requires Inv(s) && WellTyped(s) && Enabled(s, st) && j < |s.jobs|
    ensures var s' := Apply(s, st);
      j < |s'.jobs| && (s'.jobs[j].exit == s.jobs[j].exit || LeavesBy(s, st, j, s'.jobs[j].exit))
  {
    hide Inv, WellTyped, AdvanceThread, CanAdvance, BoApply, BoEnabled, JobApply, JobEnabled, CoreApply, CoreEnabled,
      FileApply, FileEnabled;
    match st {
      case Advance(t, ok, arg) => AdvanceUntouched(s, t, ok, arg);
      case OnFile(f, op) => Launching.FileQuiet(s, f, op);
      case OnBo(b, op) => Frames.BoQuiet(s, b, op);
      case OnJob(k, op) => JobLeaves(s, k, op, j);
      case OnCore(c, op) =>
        CoreFacts(s, c);
        CoreLeaves(s, c, op, j);
      case _ =>
    }
  }

  lemma JobLeaves(s: State, k: nat, op: JobOp, j: nat)
    requires WellTyped(s) && k < |s.jobs| && JobEnabled(s, k, op) && j < |s.jobs|
    ensures var s' := JobApply(s, k, op);
      j < |s'.jobs| && (s'.jobs[j].exit == s.jobs[j].exit || LeavesBy(s, OnJob(k, op), j, s'.jobs[j].exit))
  {
    assert JobTyped(s, s.jobs[k]);
    hide WellTyped, DropJob;
    Frames.DropJobQuiet(CleanBase(s, k), Sched(k));
  }

  lemma CoreLeaves(s: State, c: nat, op: CoreOp, j: nat)
    requires WellTyped(s) && c < |s.cores| && CoreEnabled(s, c, op) && j < |s.jobs| && CoreOk(c, s.cores[c], s.jobs)
    ensures var s' := CoreApply(s, c, op);
      j < |s'.jobs| && (s'.jobs[j].exit == s.jobs[j].exit || LeavesBy(s, OnCore(c, op), j, s'.jobs[j].exit))
  {
    assert |s.cores| == |s.mmus| && CoreTyped(|s.jobs|, s.cores[c]);
    hide WellTyped, CoreOk;
    if op.StartSched? {
      assert s.cores[c].slot.Some? ==> s.jobs[s.cores[c].slot.value].core == c by { SlotHere(s, c); }
    } else {
      hide LeavesBy;
      SameExits(s, c, op, j);
    }
  }

  lemma SlotHere(s: State, c: nat)
    requires c < |s.cores| && CoreOk(c, s.cores[c], s.jobs)
    ensures s.cores[c].slot.Some? ==> s.cores[c].slot.value < |s.jobs| && s.jobs[s.cores[c].slot.value].core == c
  {
  }

  lemma SameExits(s: State, c: nat, op: CoreOp, j: nat)
    requires WellTyped(s) && c < |s.cores| && CoreEnabled(s, c, op) && j < |s.jobs| && !op.StartSched?
    ensures var s' := CoreApply(s, c, op); |s'.jobs| == |s.jobs| && s'.jobs[j].exit == s.jobs[j].exit
  {
    assert |s.cores| == |s.mmus| && CoreTyped(|s.jobs|, s.cores[c]);
    hide WellTyped;
  }
}
