/**
 Jobs over whole runs: at-most-once execution, bounded work, and what SUBMIT reports.
 */
module Jobs {
  import opened Options
  import opened Machine
  import opened Invariants
  import opened Runs
  import Frames
  import IoProof
  import Launching
  import R = Refs

  // ---- who submitted a job, and how far that call is ----

  predicate Pushed(pc: Pc) {
    pc.Wait? || pc.PutJob? || pc.Vunmap? || pc.PutTask? || pc.Done?
  }

  ghost predicate OwnedJob(j: nat, job: Job, threads: seq<Thread>) {
    && job.submitter < |threads|
    && var th := threads[job.submitter];
       && th.submit && th.job == Some(j)
       && (!job.st.Init? ==> Pushed(th.pc))
       && (th.success ==> job.st.Finished?)
  }

  // A job is abandoned exactly once its count has passed the limit; handlers run only for
  // jobs that are not, one at a time on the job's core.
  ghost predicate TimeoutsOk(j: nat, job: Job, cores: seq<Core>) {
    && job.timeouts <= PATIENCE + 1 && (job.abandoned <==> job.timeouts > PATIENCE)
    && (job.core < |cores| && !cores[job.core].reset.Quiet? && cores[job.core].reset.job == j ==>
          !job.abandoned && !job.st.Init?)
  }

  // The fences a core has emitted are numbered upwards and belong to one job each.
  ghost predicate FencesOk(jobs: seq<Job>, cores: seq<Core>) {
    && (forall j | 0 <= j < |jobs| :: jobs[j].core < |cores| && jobs[j].fence <= cores[jobs[j].core].seqno)
    && (forall j, k | 0 <= j < k < |jobs| :: jobs[j].core == jobs[k].core && jobs[j].fence == jobs[k].fence ==>
          jobs[j].fence == 0)
  }

  ghost predicate Owned(s: State) {
    && FencesOk(s.jobs, s.cores)
    && (forall j | 0 <= j < |s.jobs| :: OwnedJob(j, s.jobs[j], s.threads))
    && (forall j | 0 <= j < |s.jobs| :: TimeoutsOk(j, s.jobs[j], s.cores))
  }

  // How any step may change a job and a thread.
  predicate JobMoves(a: Job, b: Job) {
    && b.submitter == a.submitter && b.core == a.core && b.tasks == a.tasks && b.fence == a.fence
    && b.timeouts == a.timeouts && b.abandoned == a.abandoned
    && (a.st.Finished? ==> b.st.Finished?) && (a.st.Init? <==> b.st.Init?)
  }

  predicate ThreadMoves(a: Thread, b: Thread) {
    && b.submit == a.submit && (a.job.Some? ==> b.job == a.job)
    && (Pushed(a.pc) ==> Pushed(b.pc)) && (b.success ==> a.success || !a.submit)
  }

  ghost predicate ThreadsMove(a: seq<Thread>, b: seq<Thread>) {
    |a| <= |b| && forall t | 0 <= t < |a| :: ThreadMoves(a[t], b[t])
  }

  ghost predicate JobsMove(a: seq<Job>, b: seq<Job>) {
    |a| == |b| && forall j | 0 <= j < |a| :: JobMoves(a[j], b[j])
  }

  // A step that starts no timeout handler and pushes no job keeps ownership.
  lemma OwnedFrame(s: State, s': State)
    requires Owned(s) && ThreadsMove(s.threads, s'.threads) && JobsMove(s.jobs, s'.jobs) && |s'.cores| == |s.cores|
    requires forall c | 0 <= c < |s.cores| ::
      !s'.cores[c].reset.Quiet? ==> !s.cores[c].reset.Quiet? && s'.cores[c].reset.job == s.cores[c].reset.job
    requires forall c | 0 <= c < |s.cores| :: s'.cores[c].seqno == s.cores[c].seqno
    ensures Owned(s')
  {
    assert FencesOk(s'.jobs, s'.cores) by {
      assert forall j | 0 <= j < |s.jobs| :: JobMoves(s.jobs[j], s'.jobs[j]);
    }
    forall j | 0 <= j < |s'.jobs| ensures OwnedJob(j, s'.jobs[j], s'.threads) && TimeoutsOk(j, s'.jobs[j], s'.cores) {
      assert OwnedJob(j, s.jobs[j], s.threads) && TimeoutsOk(j, s.jobs[j], s.cores);
      assert JobMoves(s.jobs[j], s'.jobs[j]);
      assert ThreadMoves(s.threads[s.jobs[j].submitter], s'.threads[s.jobs[j].submitter]);
    }
  }

  lemma GetMoves(s: State, t: nat, ok: bool, arg: nat)
    requires WellTyped(s) && t < |s.threads|
    requires var pc := s.threads[t].pc; pc.Lookup? || pc.Create? || pc.Install? || pc.Discard?
    ensures ThreadsMove(s.threads, AdvanceThread(s, t, ok, arg).threads)
  {
    hide Granted, DropDom;
    assert ThreadTyped(s, s.threads[t]);
    Frames.DropDomQuiet(s, Cand(t));
    if s.threads[t].pc.Lookup? && MySlot(s, t) in s.domRefs.ptr {
      Frames.GrantedQuiet(s, t, s.domRefs.ptr[MySlot(s, t)], AfterGet(s.threads[t]));
    }
    if s.threads[t].pc.Install? {
      if MySlot(s, t) in s.domRefs.ptr {
        Frames.GrantedQuiet(s, t, s.domRefs.ptr[MySlot(s, t)], Discard);
      } else if Cand(t) in s.domRefs.ptr {
        Frames.GrantedQuiet(s.(domRefs := R.Move(s.domRefs, Cand(t), MySlot(s, t))), t, s.domRefs.ptr[Cand(t)],
                            AfterGet(s.threads[t]));
      }
    }
  }

  lemma ForwardMoves(s: State, t: nat, ok: bool, arg: nat)
    requires WellTyped(s) && t < |s.threads| && !s.threads[t].submit
    requires var pc := s.threads[t].pc;
      pc.Pages? || pc.Insert? || pc.MapIova? || pc.MakeHandle? || pc.Finish? || pc.Done?
    ensures ThreadsMove(s.threads, AdvanceThread(s, t, ok, arg).threads)
  {
    hide WellTyped;
  }

  lemma UndoMoves(s: State, t: nat, ok: bool, arg: nat)
    requires WellTyped(s) && t < |s.threads| && !s.threads[t].submit
    requires var pc := s.threads[t].pc; pc.UndoMap? || pc.UndoInsert? || pc.UndoDomain? || pc.UndoAlloc?
    ensures ThreadsMove(s.threads, AdvanceThread(s, t, ok, arg).threads)
  {
    hide WellTyped, DropDom;
    Frames.DropDomQuiet(s, BoDom(s.threads[t].bo));
  }

  // The submit steps before a job exists or after it is pushed, and those that only unwind.
  lemma SubmitMoves(s: State, t: nat, ok: bool, arg: nat)
    requires WellTyped(s) && t < |s.threads| && s.threads[t].submit
    requires var pc := s.threads[t].pc;
      pc.Vmap? || pc.InitJob? || (pc.Push? && !ok) || pc.Cleanup? || pc.PutJob? || pc.Vunmap? || pc.PutTask? || pc.Done?
    ensures var s' := AdvanceThread(s, t, ok, arg); ThreadsMove(s.threads, s'.threads) && JobsMove(s.jobs, s'.jobs)
  {
    hide DropDom, DropJob;
    assert ThreadTyped(s, s.threads[t]);
    Frames.DropJobQuiet(s, Submitter(t));
  }

  lemma PushOwned(s: State, t: nat)
    requires Inv(s) && Owned(s) && t < |s.threads| && s.threads[t].submit && s.threads[t].pc.Push?
    ensures Owned(AdvanceThread(s, t, true, 0))
  {
    hide IoInv, CoresOk, Attached, Flights, PowerOk, History, WellTyped;
    IoProof.SelfOk(s, t);
    var s' := AdvanceThread(s, t, true, 0);
    forall j | 0 <= j < |s'.jobs| ensures OwnedJob(j, s'.jobs[j], s'.threads) && TimeoutsOk(j, s'.jobs[j], s'.cores) {
      assert OwnedJob(j, s.jobs[j], s.threads) && TimeoutsOk(j, s.jobs[j], s.cores);
    }
  }

  lemma WaitOwned(s: State, t: nat)
    requires Inv(s) && Owned(s) && t < |s.threads| && s.threads[t].submit && s.threads[t].pc.Wait?
    requires CanAdvance(s, t, true, 0)
    ensures Owned(AdvanceThread(s, t, true, 0))
  {
    hide IoInv, CoresOk, Attached, Flights, PowerOk, History, WellTyped;
    var s' := AdvanceThread(s, t, true, 0);
    forall j | 0 <= j < |s'.jobs| ensures OwnedJob(j, s'.jobs[j], s'.threads) && TimeoutsOk(j, s'.jobs[j], s'.cores) {
      assert OwnedJob(j, s.jobs[j], s.threads) && TimeoutsOk(j, s.jobs[j], s.cores);
    }
  }

  lemma AllocOwned(s: State, t: nat, ok: bool)
    requires Inv(s) && Owned(s) && t < |s.threads| && s.threads[t].submit && s.threads[t].pc.Alloc?
    ensures Owned(AdvanceThread(s, t, ok, 0))
  {
    hide IoInv, CoresOk, Attached, Flights, PowerOk, History, WellTyped;
    IoProof.SelfOk(s, t);
    var s' := AdvanceThread(s, t, ok, 0);
    forall j | 0 <= j < |s'.jobs| ensures OwnedJob(j, s'.jobs[j], s'.threads) && TimeoutsOk(j, s'.jobs[j], s'.cores) {
      if j < |s.jobs| {
        assert OwnedJob(j, s.jobs[j], s.threads) && TimeoutsOk(j, s.jobs[j], s.cores);
      } else {
        NoReset(s, j);
      }
    }
  }

  // Timeout handlers only ever concern existing jobs.
  lemma NoReset(s: State, j: nat)
    requires Inv(s) && j >= |s.jobs|
    ensures forall c | 0 <= c < |s.cores| :: !s.cores[c].reset.Quiet? ==> s.cores[c].reset.job != j
  {
    hide IoInv, Attached, Flights, PowerOk, History;
    forall c | 0 <= c < |s.cores| ensures !s.cores[c].reset.Quiet? ==> s.cores[c].reset.job != j {
      assert CoreOk(c, s.cores[c], s.jobs);
    }
  }

  // Only Create and Insert look at arg.
  lemma SameArg(s: State, t: nat, ok: bool, arg: nat)
    requires WellTyped(s) && t < |s.threads|
    requires (s.threads[t].pc.Alloc? || s.threads[t].pc.Push? || s.threads[t].pc.Wait?)
    ensures AdvanceThread(s, t, ok, arg) == AdvanceThread(s, t, ok, 0)
    ensures s.threads[t].pc.Wait? ==> AdvanceThread(s, t, ok, 0) == AdvanceThread(s, t, true, 0)
  {
  }

  lemma AdvanceOwned(s: State, t: nat, ok: bool, arg: nat)
    requires Inv(s) && Owned(s) && t < |s.threads| && CanAdvance(s, t, ok, arg)
    ensures Owned(AdvanceThread(s, t, ok, arg))
  {
    hide IoInv, CoresOk, Attached, Flights, PowerOk, History, WellTyped, Owned, AdvanceThread;
    var s' := AdvanceThread(s, t, ok, arg);
    var pc := s.threads[t].pc;
    ThreadKind(s, t);
    Frames.AdvanceQuiet(s, t, ok, arg);
    if pc.Lookup? || pc.Create? || pc.Install? || pc.Discard? {
      Frames.GetQuiet(s, t, ok, arg);
      GetMoves(s, t, ok, arg);
      OwnedFrame(s, s');
    } else if !s.threads[t].submit {
      Frames.MakeQuiet(s, t, ok, arg);
      if pc.UndoMap? || pc.UndoInsert? || pc.UndoDomain? || pc.UndoAlloc? {
        UndoMoves(s, t, ok, arg);
      } else {
        ForwardMoves(s, t, ok, arg);
      }
      OwnedFrame(s, s');
    } else if pc.Alloc? {
      AllocOwned(s, t, ok);
      SameArg(s, t, ok, arg);
    } else if pc.Push? && ok {
      PushOwned(s, t);
      SameArg(s, t, ok, arg);
    } else if pc.Wait? {
      WaitOwned(s, t);
      SameArg(s, t, ok, arg);
    } else {
      SubmitMoves(s, t, ok, arg);
      OwnedFrame(s, s');
    }
  }

  lemma CoreOwned(s: State, c: nat, op: CoreOp)
    requires Inv(s) && Owned(s) && c < |s.cores| && CoreEnabled(s, c, op)
    requires !op.TimedOut? && !op.Count?
    ensures Owned(CoreApply(s, c, op))
  {
    hide IoInv, Attached, Flights, PowerOk, History, WellTyped, Owned;
    assert CoreOk(c, s.cores[c], s.jobs);
    var s' := CoreApply(s, c, op);
    CoreShape(s, c, op);
    OwnedFrame(s, s');
  }

  // Only a timeout starts a handler and only its end counts; jobs only move forward.
  ghost predicate Onward(s: State, s': State) {
    && s'.threads == s.threads && JobsMove(s.jobs, s'.jobs) && |s'.cores| == |s.cores|
    && (forall k | 0 <= k < |s.cores| ::
          && s'.cores[k].seqno == s.cores[k].seqno
          && (!s'.cores[k].reset.Quiet? ==> !s.cores[k].reset.Quiet? && s'.cores[k].reset.job == s.cores[k].reset.job))
  }

  lemma CoreShape(s: State, c: nat, op: CoreOp)
    requires WellTyped(s) && c < |s.cores| && CoreEnabled(s, c, op) && CoreOk(c, s.cores[c], s.jobs)
    requires !op.TimedOut? && !op.Count?
    ensures Onward(s, CoreApply(s, c, op))
  {
    assert |s.cores| == |s.mmus| && CoreTyped(|s.jobs|, s.cores[c]);
    hide WellTyped, Onward, RunSection, Irq;
    match op {
      case Section(attachErr) => SectionShape(s, c, attachErr);
      case Interrupt => IrqShape(s, c);
      case _ => OnwardRun(s, c, op);
    }
  }

  lemma SectionShape(s: State, c: nat, attachErr: bool)
    requires WellTyped(s) && c < |s.cores| && !s.cores[c].run.Idle?
    ensures Onward(s, RunSection(s, c, attachErr))
  {
    assert |s.cores| == |s.mmus| && CoreTyped(|s.jobs|, s.cores[c]);
    hide WellTyped;
  }

  lemma IrqShape(s: State, c: nat)
    requires WellTyped(s) && c < |s.cores|
    ensures Onward(s, Irq(s, c))
  {
    assert |s.cores| == |s.mmus| && CoreTyped(|s.jobs|, s.cores[c]);
    hide WellTyped;
  }

  lemma OnwardRun(s: State, c: nat, op: CoreOp)
    requires WellTyped(s) && c < |s.cores| && CoreEnabled(s, c, op) && CoreOk(c, s.cores[c], s.jobs)
    requires !op.TimedOut? && !op.Count? && !op.Section? && !op.Interrupt?
    ensures Onward(s, CoreApply(s, c, op))
  {
    assert |s.cores| == |s.mmus| && CoreTyped(|s.jobs|, s.cores[c]);
    hide WellTyped;
  }

  lemma TimedOutOwned(s: State, c: nat, j: nat)
    requires Inv(s) && Owned(s) && c < |s.cores| && CoreEnabled(s, c, TimedOut(j))
    ensures Owned(Timeout(s, c, j))
  {
    hide IoInv, CoresOk, Attached, Flights, PowerOk, History, WellTyped;
    var s' := Timeout(s, c, j);
    forall k | 0 <= k < |s'.jobs| ensures OwnedJob(k, s'.jobs[k], s'.threads) && TimeoutsOk(k, s'.jobs[k], s'.cores) {
      assert OwnedJob(k, s.jobs[k], s.threads) && TimeoutsOk(k, s.jobs[k], s.cores);
    }
  }

  lemma CoreAt(s: State, c: nat)
    requires Inv(s) && c < |s.cores|
    ensures WellTyped(s) && CoreOk(c, s.cores[c], s.jobs)
  {
    hide IoInv, Attached, Flights, PowerOk, History, WellTyped, CoreOk;
  }

  lemma CountOwned(s: State, c: nat)
    requires WellTyped(s) && c < |s.cores| && s.cores[c].reset.Restarted? && Inv(s) && Owned(s)
    ensures Owned(CountTimeout(s, c))
  {
    hide Inv, WellTyped, CountTimeout, Owned, Counted, CoreOk;
    CoreAt(s, c);
    CountShape(s, c);
    CountedOwned(s, CountTimeout(s, c), c);
  }

  // One more timeout for the handler's job, and the handler is done.
  ghost predicate Counted(s: State, s': State, c: nat) {
    && c < |s.cores| && !s.cores[c].reset.Quiet? && s.cores[c].reset.job < |s.jobs|
    && s.jobs[s.cores[c].reset.job].core == c
    && var j := s.cores[c].reset.job;
       && s'.jobs == s.jobs[j := s.jobs[j].(timeouts := s.jobs[j].timeouts + 1,
                                            abandoned := s.jobs[j].timeouts + 1 > PATIENCE)]
       && s'.cores == s.cores[c := s.cores[c].(reset := Quiet)] && s'.threads == s.threads
  }

  lemma CountShape(s: State, c: nat)
    requires WellTyped(s) && c < |s.cores| && s.cores[c].reset.Restarted? && CoreOk(c, s.cores[c], s.jobs)
    ensures Counted(s, CountTimeout(s, c), c)
  {
    hide WellTyped;
  }

  lemma CountedOwned(s: State, s': State, c: nat)
    requires Owned(s) && Counted(s, s', c)
    ensures Owned(s')
  {
    var j := s.cores[c].reset.job;
    forall k | 0 <= k < |s'.jobs| ensures OwnedJob(k, s'.jobs[k], s'.threads) && TimeoutsOk(k, s'.jobs[k], s'.cores) {
      assert OwnedJob(k, s.jobs[k], s.threads) && TimeoutsOk(k, s.jobs[k], s.cores);
      assert TimeoutsOk(j, s.jobs[j], s.cores);
    }
  }

  // rocket_fence_create numbers the new fence above all earlier ones.
  lemma BeginOwned(s: State, j: nat)
    requires WellTyped(s) && Owned(s) && j < |s.jobs| && s.jobs[j].st.Queued?
    ensures Owned(RunBegin(s, j))
  {
    assert JobTyped(s, s.jobs[j]);
    hide WellTyped;
    var s' := RunBegin(s, j);
    forall k | 0 <= k < |s'.jobs| ensures OwnedJob(k, s'.jobs[k], s'.threads) && TimeoutsOk(k, s'.jobs[k], s'.cores) {
      assert OwnedJob(k, s.jobs[k], s.threads) && TimeoutsOk(k, s.jobs[k], s.cores);
    }
  }

  lemma JobOwned(s: State, j: nat, op: JobOp)
    requires Inv(s) && Owned(s) && j < |s.jobs| && JobEnabled(s, j, op) && !op.Begin?
    ensures Owned(JobApply(s, j, op))
  {
    hide IoInv, CoresOk, Attached, Flights, PowerOk, History, Owned, DropJob;
    Frames.DropJobQuiet(CleanBase(s, j), Sched(j));
    OwnedFrame(s, JobApply(s, j, op));
  }

  lemma OwnedKeeps(s: State, st: Step)
    requires Inv(s) && Owned(s) && Enabled(s, st)
    ensures Owned(Apply(s, st))
  {
    hide Inv, WellTyped, Owned, CoreApply, CoreEnabled, JobApply, JobEnabled, BoApply, BoEnabled, FileApply,
      FileEnabled, AdvanceThread, CanAdvance;
    Launching.InvTyped(s);
    match st {
      case Advance(t, ok, arg) => AdvanceOwned(s, t, ok, arg);
      case OnFile(f, op) =>
        Launching.FileQuiet(s, f, op);
        OwnedFrame(s, Apply(s, st));
      case OnBo(b, op) =>
        Frames.BoQuiet(s, b, op);
        OwnedFrame(s, Apply(s, st));
      case OnJob(j, op) =>
        if op.Begin? {
          BeginEnabled(s, j);
          BeginOwned(s, j);
        } else {
          JobOwned(s, j, op);
        }
      case OnCore(c, op) => CoreOpOwned(s, c, op);
      case _ => OwnedFrame(s, Apply(s, st));
    }
  }

  lemma BeginEnabled(s: State, j: nat)
    requires WellTyped(s) && j < |s.jobs| && JobEnabled(s, j, Begin)
    ensures s.jobs[j].st.Queued? && JobApply(s, j, Begin) == RunBegin(s, j)
  {
    hide WellTyped;
  }

  lemma CoreOpOwned(s: State, c: nat, op: CoreOp)
    requires Inv(s) && Owned(s) && c < |s.cores| && CoreEnabled(s, c, op)
    ensures Owned(CoreApply(s, c, op))
  {
    hide Inv, WellTyped, Owned;
    Launching.InvTyped(s);
    match op {
      case TimedOut(j) => TimedOutOwned(s, c, j);
      case Count => CountOwned(s, c);
      case _ => CoreOwned(s, c, op);
    }
  }

  lemma {:induction false} RunOwned(s: State, steps: seq<Step>)
    requires Inv(s) && Owned(s) && ValidRun(s, steps)
    ensures Inv(After(s, steps)) && Owned(After(s, steps))
    decreases |steps|
  {
    hide Inv, Owned, WellTyped, Enabled, Apply;
    if steps != [] {
      StepKeeps(s, steps[0]);
      OwnedKeeps(s, steps[0]);
      RunOwned(Apply(s, steps[0]), steps[1..]);
    }
  }

  lemma Reached(s: State, steps: seq<Step>)
    requires Initial(s) && s.policy.AttachOnce? && ValidRun(s, steps)
    ensures Inv(After(s, steps)) && Owned(After(s, steps))
  {
    hide Inv, WellTyped, Enabled, Apply;
    InitiallyOk(s);
    RunOwned(s, steps);
  }

  lemma ReachableOwned(s: State)
    requires Reachable(s)
    ensures Inv(s) && Owned(s)
  {
    hide Inv, Owned, WellTyped, Enabled, Apply, ValidRun, After, Initial;
    var s0, steps :| Initial(s0) && s0.policy.AttachOnce? && ValidRun(s0, steps) && After(s0, steps) == s;
    Reached(s0, steps);
  }
}
