/**
 Why a task array can be unmapped too early: only because the submitter's wait expired.
 */
module Waits {
  import opened Options
  import opened Machine
  import opened Invariants
  import opened Runs
  import opened Jobs
  import opened Frames
  import Launching
  import Execution
  import PoolRuns
  import R = Refs

  // The threads whose wait expired in a run.
  function Expired(steps: seq<Step>): set<nat> {
    set st | st in steps && st.Expire? :: st.t
  }

  // A submitter that left the wait of a pushed job without success, did so by expiry.
  ghost predicate WaitedOut(s: State, done: set<nat>) {
    forall j | 0 <= j < |s.jobs| && !s.jobs[j].st.Init? && s.jobs[j].submitter < |s.threads| ::
      var th := s.threads[s.jobs[j].submitter];
      AfterWait(th.pc) && !th.success ==> s.jobs[j].submitter in done
  }

  // Unmapped task arrays were only read for such submitters.
  ghost predicate ReadsWaited(s: State, done: set<nat>) {
    forall j: nat | TaskArray(j) in s.stale :: j < |s.jobs| && s.jobs[j].submitter in done
  }

  function Adds(st: Step): set<nat> {
    if st.Expire? then {st.t} else {}
  }

  // ---- one step ----

  // Jobs keep their submitters, and only a push makes one leave Init, sending its thread to
  // the wait.
  ghost predicate Pushes(s: State, s': State) {
    && |s.jobs| <= |s'.jobs|
    && (forall j | 0 <= j < |s.jobs| ::
          && s'.jobs[j].submitter == s.jobs[j].submitter
          && (s.jobs[j].st.Init? && !s'.jobs[j].st.Init? ==>
                s.jobs[j].submitter < |s'.threads| && s'.threads[s.jobs[j].submitter].pc.Wait?))
    && (forall j | |s.jobs| <= j < |s'.jobs| :: s'.jobs[j].st.Init?)
  }

  lemma AdvancePushes(s: State, t: nat, ok: bool, arg: nat)
    requires Inv(s) && WellTyped(s) && Owned(s) && t < |s.threads| && CanAdvance(s, t, ok, arg)
    ensures Pushes(s, AdvanceThread(s, t, ok, arg))
  {
    hide Inv, WellTyped, Owned, AdvanceThread, CanAdvance, Pushes;
    var pc := s.threads[t].pc;
    ThreadKind(s, t);
    if pc.Lookup? || pc.Create? || pc.Install? || pc.Discard? {
      GetQuiet(s, t, ok, arg);
      SameJobs(s, AdvanceThread(s, t, ok, arg));
    } else if !s.threads[t].submit {
      MakeQuiet(s, t, ok, arg);
      SameJobs(s, AdvanceThread(s, t, ok, arg));
    } else if pc.Alloc? {
      AllocPushes(s, t, ok, arg);
    } else if (pc.Push? && ok) || pc.Wait? {
      if pc.Push? {
        PushedBy(s, t);
      }
      PushPushes(s, t, ok, arg);
    } else {
      SubmitMoves(s, t, ok, arg);
      MovedJobs(s, AdvanceThread(s, t, ok, arg));
    }
  }

  lemma SameJobs(s: State, s': State)
    requires s'.jobs == s.jobs
    ensures Pushes(s, s')
  {
  }

  lemma MovedJobs(s: State, s': State)
    requires JobsMove(s.jobs, s'.jobs)
    ensures Pushes(s, s')
  {
    forall j | 0 <= j < |s.jobs|
      ensures s'.jobs[j].submitter == s.jobs[j].submitter && (s'.jobs[j].st.Init? <==> s.jobs[j].st.Init?)
    {
      assert JobMoves(s.jobs[j], s'.jobs[j]);
    }
  }

  lemma AllocPushes(s: State, t: nat, ok: bool, arg: nat)
    requires WellTyped(s) && t < |s.threads| && s.threads[t].pc.Alloc?
    ensures Pushes(s, AdvanceThread(s, t, ok, arg))
  {
    hide WellTyped;
  }

  lemma PushPushes(s: State, t: nat, ok: bool, arg: nat)
    requires WellTyped(s) && t < |s.threads| && (s.threads[t].pc.Push? || s.threads[t].pc.Wait?)
    requires var th := s.threads[t];
      th.pc.Push? ==> th.job.Some? && th.job.value < |s.jobs| && s.jobs[th.job.value].submitter == t
    ensures Pushes(s, AdvanceThread(s, t, ok, arg))
  {
    hide WellTyped;
  }

  lemma PushedBy(s: State, t: nat)
    requires Inv(s) && t < |s.threads| && s.threads[t].submit && s.threads[t].pc.Push?
    ensures s.threads[t].job.Some? && s.threads[t].job.value < |s.jobs| && s.jobs[s.threads[t].job.value].submitter == t
  {
    hide R.Balanced, DomHolders, DomLinks, Gens, Spaces, OnlyOpen, BoRefs, CoresOk, Attached, Flights, PowerOk, History,
      GrantsOk, WellTyped;
    assert SubmitOk(t, s.threads[t], s.jobs, s.jobRefs.ptr, s.domRefs.ptr);
  }

  // How each thread moves in a step.
  ghost predicate ThreadsWait(s: State, s': State, done: set<nat>) {
    && |s.threads| <= |s'.threads|
    && (forall t | 0 <= t < |s.threads| ::
          && s'.threads[t].submit == s.threads[t].submit
          && (s.threads[t].pc.Wait? ==> s'.threads[t].pc.Wait? || s'.threads[t].success || t in done)
          && (s.threads[t].submit && AfterWait(s.threads[t].pc) ==>
                AfterWait(s'.threads[t].pc) && s'.threads[t].success == s.threads[t].success))
  }

  lemma KeepsWaits(s: State, s': State, done: set<nat>, added: set<nat>)
    requires Owned(s) && WaitedOut(s, done) && Pushes(s, s') && ThreadsWait(s, s', added)
    ensures WaitedOut(s', done + added)
  {
    forall j | 0 <= j < |s'.jobs| && !s'.jobs[j].st.Init? && s'.jobs[j].submitter < |s'.threads|
      && AfterWait(s'.threads[s'.jobs[j].submitter].pc) && !s'.threads[s'.jobs[j].submitter].success
      ensures s'.jobs[j].submitter in done + added
    {
      assert OwnedJob(j, s.jobs[j], s.threads);
    }
  }

  lemma StepPushes(s: State, st: Step)
    requires Inv(s) && WellTyped(s) && Owned(s) && Enabled(s, st)
    ensures Pushes(s, Apply(s, st))
  {
    hide Inv, WellTyped, Owned, AdvanceThread, CanAdvance, BoApply, BoEnabled, JobApply, JobEnabled, CoreApply,
      CoreEnabled, FileApply, FileEnabled, Pushes;
    var s' := Apply(s, st);
    match st {
      case Advance(t, ok, arg) => AdvancePushes(s, t, ok, arg);
      case OnFile(f, op) =>
        Launching.FileQuiet(s, f, op);
        SameJobs(s, s');
      case OnBo(b, op) =>
        BoQuiet(s, b, op);
        SameJobs(s, s');
      case OnJob(j, op) => JobPushes(s, j, op);
      case OnCore(c, op) => CorePushes(s, c, op);
      case _ => SameJobs(s, s');
    }
  }

  lemma JobPushes(s: State, j: nat, op: JobOp)
    requires WellTyped(s) && j < |s.jobs| && JobEnabled(s, j, op)
    ensures Pushes(s, JobApply(s, j, op))
  {
    hide WellTyped, DropJob;
    DropJobQuiet(CleanBase(s, j), Sched(j));
  }

  lemma CorePushes(s: State, c: nat, op: CoreOp)
    requires Inv(s) && WellTyped(s) && c < |s.cores| && CoreEnabled(s, c, op)
    ensures Pushes(s, CoreApply(s, c, op))
  {
    hide Inv, WellTyped, CoreOk, Pushes;
    CoreAt(s, c);
    if op.TimedOut? || op.Count? {
      HandlerPushes(s, c, op);
    } else {
      CoreShape(s, c, op);
      MovedJobs(s, CoreApply(s, c, op));
    }
  }

  lemma HandlerPushes(s: State, c: nat, op: CoreOp)
    requires WellTyped(s) && c < |s.cores| && CoreEnabled(s, c, op) && (op.TimedOut? || op.Count?)
    ensures Pushes(s, CoreApply(s, c, op))
  {
    assert CoreTyped(|s.jobs|, s.cores[c]);
    hide WellTyped;
  }

  lemma StepThreads(s: State, st: Step)
    requires Inv(s) && WellTyped(s) && Enabled(s, st)
    ensures ThreadsWait(s, Apply(s, st), Adds(st))
  {
    hide Inv, WellTyped, AdvanceThread, CanAdvance, BoApply, BoEnabled, JobApply, JobEnabled, CoreApply, CoreEnabled,
      FileApply, FileEnabled, Progress;
    match st {
      case Advance(t, ok, arg) =>
        AdvanceQuiet(s, t, ok, arg);
        PoolRuns.CallProgress(s, t, ok, arg);
        PoolRuns.ProgressParts(s.threads[t], AdvanceThread(s, t, ok, arg).threads[t]);
        SameKind(s, t, ok, arg);
      case OnFile(f, op) => Launching.FileQuiet(s, f, op);
      case OnBo(b, op) => BoQuiet(s, b, op);
      case OnJob(j, op) => PoolRuns.JobSame(s, j, op);
      case OnCore(c, op) => PoolRuns.CoreSame(s, c, op);
      case _ =>
    }
  }

  lemma SameKind(s: State, t: nat, ok: bool, arg: nat)
    requires Inv(s) && WellTyped(s) && t < |s.threads| && CanAdvance(s, t, ok, arg)
    ensures var s' := AdvanceThread(s, t, ok, arg);
      t < |s'.threads| && s'.threads[t].submit == s.threads[t].submit
  {
    hide Inv, WellTyped, AdvanceThread, CanAdvance, BeforeGet, AfterGot, AfterWait;
    PoolRuns.CallProgress(s, t, ok, arg);
  }

  lemma StepReads(s: State, st: Step, done: set<nat>)
    requires Inv(s) && WellTyped(s) && Owned(s) && Enabled(s, st) && WaitedOut(s, done) && ReadsWaited(s, done)
    ensures ReadsWaited(Apply(s, st), done)
  {
    hide Inv, WellTyped, Owned, AdvanceThread, CanAdvance, BoApply, BoEnabled, JobApply, JobEnabled, CoreApply,
      CoreEnabled, FileApply, FileEnabled, WaitedOut;
    StepPushes(s, st);
    match st {
      case Advance(t, ok, arg) => AdvanceQuiet(s, t, ok, arg);
      case OnFile(f, op) => Launching.FileQuiet(s, f, op);
      case OnBo(b, op) => BoQuiet(s, b, op);
      case OnJob(j, op) => JobStale(s, j, op);
      case OnCore(c, op) => CoreStale(s, c, op, done);
      case _ =>
    }
  }

  lemma JobStale(s: State, j: nat, op: JobOp)
    requires WellTyped(s) && j < |s.jobs| && JobEnabled(s, j, op)
    ensures JobApply(s, j, op).stale == s.stale
  {
    hide DropJob;
    DropJobQuiet(CleanBase(s, j), Sched(j));
  }

  lemma CoreStale(s: State, c: nat, op: CoreOp, done: set<nat>)
    requires Inv(s) && WellTyped(s) && Owned(s) && c < |s.cores| && CoreEnabled(s, c, op) && WaitedOut(s, done)
    ensures forall j: nat | TaskArray(j) in CoreApply(s, c, op).stale ::
      TaskArray(j) in s.stale || (j < |s.jobs| && s.jobs[j].submitter in done)
  {
    hide Inv, WellTyped, Owned, CoreEnabled;
    if op.Section? || op.Interrupt? {
      Execution.LaunchReads(s, c, op);
    } else if !op.Count? {
      Execution.StaleKept(s, c, op);
    }
  }

  // ---- whole runs ----

  lemma {:induction false} RunWaits(s: State, steps: seq<Step>, done: set<nat>)
    requires Inv(s) && Owned(s) && ValidRun(s, steps) && WaitedOut(s, done) && ReadsWaited(s, done)
    ensures WaitedOut(After(s, steps), done + Expired(steps)) && ReadsWaited(After(s, steps), done + Expired(steps))
    decreases |steps|
  {
    hide Inv, Owned, WellTyped, Enabled, Apply, WaitedOut, ReadsWaited, Expired;
    ExpiredSplit(steps);
    if steps == [] {
      assert done + {} == done;
    } else {
      var st, s' := steps[0], Apply(s, steps[0]);
      StepKeeps(s, st);
      OwnedKeeps(s, st);
      StepPushes(s, st);
      StepThreads(s, st);
      KeepsWaits(s, s', done, Adds(st));
      StepReads(s, st, done);
      MoreDone(s', done, Adds(st));
      RunWaits(s', steps[1..], done + Adds(st));
      assert done + Expired(steps) == done + Adds(st) + Expired(steps[1..]);
    }
  }

  lemma MoreDone(s: State, done: set<nat>, more: set<nat>)
    requires ReadsWaited(s, done)
    ensures ReadsWaited(s, done + more)
  {
  }

  lemma ExpiredSplit(steps: seq<Step>)
    ensures Expired(steps) == if steps == [] then {} else Adds(steps[0]) + Expired(steps[1..])
  {
    if steps != [] {
      forall t ensures t in Expired(steps) <==> t in Adds(steps[0]) + Expired(steps[1..]) {
        assert Expire(t) in steps <==> steps[0] == Expire(t) || Expire(t) in steps[1..];
      }
    }
  }

  // In every run, the task array of a job that is still queued or active is unmapped, and any
  // launch read an unmapped one, only if the submitter's wait expired earlier in the run.
  lemma UnmappedOnlyAfterExpiry(s: State, steps: seq<Step>, j: nat)
    requires Initial(s) && s.policy.AttachOnce? && ValidRun(s, steps) && j < |After(s, steps).jobs|
    ensures var e := After(s, steps);
      (e.jobs[j].st.Queued? || e.jobs[j].st.Active?) && e.jobs[j].submitter !in e.maps ==>
        Expire(e.jobs[j].submitter) in steps
    ensures var e := After(s, steps); TaskArray(j) in e.stale ==> Expire(e.jobs[j].submitter) in steps
  {
    hide IoInv, CoresOk, Attached, Flights, PowerOk, WellTyped, Enabled, Apply, ValidRun;
    InitiallyOk(s);
    Reached(s, steps);
    RunWaits(s, steps, {});
    var e := After(s, steps);
    assert {} + Expired(steps) == Expired(steps);
    if e.jobs[j].st.Queued? || e.jobs[j].st.Active? {
      Execution.MappedUnlessGivenUp(e, j);
    }
  }
}
