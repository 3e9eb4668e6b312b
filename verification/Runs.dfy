/**
 Runs of the machine: the invariant holds initially and after every step, so no run ever
 faults.
 */
module Runs {
  import opened Options
  import opened Machine
  import opened Invariants
  import RunProof
  import IoProof
  import GetProof
  import MemProof
  import SubmitProof
  import CloseProof
  import R = Refs

  lemma InitiallyOk(s: State)
    requires Initial(s) && s.policy.AttachOnce?
    ensures Inv(s)
  {
    TotalIdle(s.cores);
    assert R.Balanced(s.domRefs) && R.Balanced(s.jobRefs) && R.Balanced(s.boRefs);
    assert Spaces(s.lo, s.hi, s.doms, s.domRefs.ptr, s.bos);
  }

  lemma {:induction false} TotalIdle(cores: seq<Core>)
    requires forall c | 0 <= c < |cores| :: cores[c] == Core(None, Unlocked, Idle, Quiet, false, None, 0, {}, {})
    ensures Total(cores) == 0
  {
    if cores != [] {
      TotalIdle(cores[1..]);
    }
  }

  lemma ThreadKind(s: State, t: nat)
    requires Inv(s) && t < |s.threads|
    ensures var th := s.threads[t];
      if th.submit then
        (HasMap(th.pc) || th.pc.Vmap? || th.pc.PutTask? || th.pc.Done?)
        && (HoldsJob(th.pc) ==> th.job.Some?)
      else CreatePc(th.pc)
  {
    hide IoInv, CoresOk, Attached, Flights, PowerOk, History, WellTyped;
    IoProof.SelfOk(s, t);
  }

  // The part of an ioctl that both calls share.
  lemma GetKeeps(s: State, t: nat, ok: bool, arg: nat)
    requires Inv(s) && t < |s.threads| && CanAdvance(s, t, ok, arg)
    requires var pc := s.threads[t].pc; pc.Lookup? || pc.Create? || pc.Install? || pc.Discard?
    ensures Inv(AdvanceThread(s, t, ok, arg))
  {
    hide IoInv, CoresOk, Attached, Flights, PowerOk, History, WellTyped;
    match s.threads[t].pc {
      case Lookup => GetProof.LookupKeeps(s, t);
      case Create =>
        if ok {
          GetProof.CreateKeeps(s, t, arg);
        } else {
          IoProof.GotoKeeps(s, t, if s.threads[t].submit then Cleanup else UndoAlloc);
        }
      case Install => GetProof.InstallKeeps(s, t);
      case Discard => GetProof.DiscardKeeps(s, t);
    }
  }

  lemma MemCreateKeeps(s: State, t: nat, ok: bool, arg: nat)
    requires Inv(s) && t < |s.threads| && CanAdvance(s, t, ok, arg) && !s.threads[t].submit
    requires var pc := s.threads[t].pc; !pc.Lookup? && !pc.Create? && !pc.Install? && !pc.Discard?
    ensures Inv(AdvanceThread(s, t, ok, arg))
  {
    hide IoInv, CoresOk, Attached, Flights, PowerOk, History, WellTyped;
    ThreadKind(s, t);
    match s.threads[t].pc {
      case Pages => IoProof.GotoKeeps(s, t, if ok then Insert else UndoDomain);
      case Insert => MemProof.InsertKeeps(s, t, ok, arg);
      case MapIova => MemProof.MapKeeps(s, t, ok);
      case MakeHandle => MemProof.HandleKeeps(s, t, ok);
      case Finish => MemProof.FinishKeeps(s, t);
      case UndoMap => MemProof.UndoMapKeeps(s, t);
      case UndoInsert => MemProof.UndoInsertKeeps(s, t);
      case UndoDomain => MemProof.UndoDomainKeeps(s, t);
      case UndoAlloc => MemProof.UndoAllocKeeps(s, t);
      case _ =>
    }
  }

  lemma SubmitKeeps(s: State, t: nat, ok: bool, arg: nat)
    requires Inv(s) && t < |s.threads| && CanAdvance(s, t, ok, arg) && s.threads[t].submit
    requires var pc := s.threads[t].pc; !pc.Lookup? && !pc.Create? && !pc.Install? && !pc.Discard?
    ensures Inv(AdvanceThread(s, t, ok, arg))
  {
    hide IoInv, CoresOk, Attached, Flights, PowerOk, History, WellTyped;
    ThreadKind(s, t);
    match s.threads[t].pc {
      case Vmap =>
        if ok {
          SubmitProof.MapsKeeps(s, t, Alloc);
        } else {
          IoProof.GotoKeeps(s, t, PutTask);
        }
      case Alloc => SubmitProof.AllocKeeps(s, t, ok);
      case InitJob => SubmitProof.InitKeeps(s, t, ok);
      case Push => SubmitProof.PushKeeps(s, t, ok);
      case Wait => SubmitProof.WaitKeeps(s, t, true);
      case Cleanup => SubmitProof.CleanupKeeps(s, t);
      case PutJob => SubmitProof.PutJobKeeps(s, t);
      case Vunmap => SubmitProof.MapsKeeps(s, t, PutTask);
      case PutTask => MemProof.PutTaskKeeps(s, t);
      case _ =>
    }
  }

  lemma CoreKeeps(s: State, c: nat, op: CoreOp)
    requires Inv(s) && c < |s.cores| && CoreEnabled(s, c, op)
    ensures Inv(CoreApply(s, c, op))
  {
    hide IoInv, CoresOk, Attached, Flights, PowerOk, History, WellTyped;
    match op {
      case Power(fail) => RunProof.PowerKeeps(s, c, fail);
      case Section(attachErr) => RunProof.SectionKeeps(s, c, attachErr);
      case Unpower => RunProof.UnpowerKeeps(s, c);
      case Fail => RunProof.FailKeeps(s, c);
      case Interrupt => RunProof.IrqKeeps(s, c);
      case InterruptPower => RunProof.IrqPowerKeeps(s, c);
      case InterruptClear => RunProof.IrqClearKeeps(s, c);
      case TimedOut(j) => RunProof.TimeoutKeeps(s, c, j);
      case StopSched => RunProof.StopKeeps(s, c);
      case ReleasePower => RunProof.ResetPowerKeeps(s, c);
      case DetachCore => RunProof.DetachKeeps(s, c);
      case ClearFlight => RunProof.ClearKeeps(s, c);
      case ResumeCore => RunProof.ResumeKeeps(s, c);
      case StartSched(requeue) => RunProof.RestartKeeps(s, c, requeue);
      case Count => RunProof.CountKeeps(s, c);
    }
  }

  lemma JobKeeps(s: State, j: nat, op: JobOp)
    requires Inv(s) && j < |s.jobs| && JobEnabled(s, j, op)
    ensures Inv(JobApply(s, j, op))
  {
    hide IoInv, CoresOk, Attached, Flights, PowerOk, History, WellTyped;
    match op {
      case Skip => RunProof.FinishKeeps(s, j, Skipped(Interrupted(s.jobs[j], s.cores)));
      case Begin => RunProof.BeginKeeps(s, j);
      case Complete => RunProof.FinishKeeps(s, j, JobApply(s, j, Complete).jobs[j].exit);
      case Free => SubmitProof.SchedFreeKeeps(s, j);
    }
  }

  lemma BoKeeps(s: State, b: nat, op: BoOp)
    requires Inv(s) && BoEnabled(s, b, op)
    ensures Inv(BoApply(s, b, op))
  {
    hide IoInv, CoresOk, Attached, Flights, PowerOk, History, WellTyped;
    match op {
      case DropHandle => MemProof.DropHandleKeeps(s, b);
      case BoUnmap => MemProof.BoUnmapKeeps(s, b);
      case BoRemove => MemProof.BoRemoveKeeps(s, b);
      case BoRelease => MemProof.FreeDomainKeeps(s, b);
    }
  }

  lemma FileKeeps(s: State, f: nat, op: FileOp)
    requires Inv(s) && f < |s.files| && FileEnabled(s, f, op)
    ensures Inv(FileApply(s, f, op))
  {
    hide IoInv, CoresOk, Attached, Flights, PowerOk, History;
    match op {
      case CloseBegin => CloseProof.CloseBeginKeeps(s, f);
      case CloseCore => CloseProof.CloseCoreKeeps(s, f);
      case CloseDomain => CloseProof.CloseDomainKeeps(s, f);
    }
  }

  // Every step of every thread, interrupt, timeout and scheduler keeps the invariant.
  lemma StepKeeps(s: State, st: Step)
    requires Inv(s) && Enabled(s, st)
    ensures Inv(Apply(s, st))
  {
    hide IoInv, CoresOk, Attached, Flights, PowerOk, History, WellTyped;
    match st {
      case OpenFile => CloseProof.OpenKeeps(s);
      case OnFile(f, op) => FileKeeps(s, f, op);
      case StartMemCreate(f, id, size) => MemProof.CallMemCreateKeeps(s, f, id, size);
      case StartSubmit(f, id, core, bo, tasks, number) => MemProof.CallSubmitKeeps(s, f, id, core, bo, tasks, number);
      case Advance(t, ok, arg) =>
        if s.threads[t].pc.Lookup? || s.threads[t].pc.Create? || s.threads[t].pc.Install? || s.threads[t].pc.Discard? {
          GetKeeps(s, t, ok, arg);
        } else if s.threads[t].submit {
          SubmitKeeps(s, t, ok, arg);
        } else {
          MemCreateKeeps(s, t, ok, arg);
        }
      case Expire(t) =>
        ThreadKind(s, t);
        SubmitProof.WaitKeeps(s, t, false);
      case OnBo(b, op) => BoKeeps(s, b, op);
      case OnJob(j, op) => JobKeeps(s, j, op);
      case OnCore(c, op) => CoreKeeps(s, c, op);
    }
  }

  // ---- whole runs ----

  // The steps can be taken one after the other from s.
  ghost predicate ValidRun(s: State, steps: seq<Step>)
    decreases |steps|
  {
    WellTyped(s) && (steps == [] || (Enabled(s, steps[0]) && ValidRun(Apply(s, steps[0]), steps[1..])))
  }

  ghost function After(s: State, steps: seq<Step>): (r: State)
    requires ValidRun(s, steps)
    ensures WellTyped(r)
    decreases |steps|
  {
    if steps == [] then s else After(Apply(s, steps[0]), steps[1..])
  }

  lemma {:induction false} RunKeeps(s: State, steps: seq<Step>)
    requires Inv(s) && ValidRun(s, steps)
    ensures Inv(After(s, steps))
    decreases |steps|
  {
    hide IoInv, CoresOk, Attached, Flights, PowerOk, History, WellTyped, Enabled, Apply;
    if steps != [] {
      StepKeeps(s, steps[0]);
      RunKeeps(Apply(s, steps[0]), steps[1..]);
    }
  }

  // No run of the driver, however interleaved, uses a freed domain or buffer, takes up, launches
  // or completes a freed job, puts or gets a freed object, frees a domain under a core,
  // underflows or leaks power, unmaps short, tears down a non-empty allocator, signals a fence
  // twice or mismatches drm_sched_job_init and drm_sched_job_cleanup.
  lemma NoRunFaults(s: State, steps: seq<Step>)
    requires Initial(s) && s.policy.AttachOnce? && ValidRun(s, steps)
    ensures After(s, steps).faults == {}
  {
    hide IoInv, CoresOk, Attached, Flights, PowerOk, History, WellTyped;
    InitiallyOk(s);
    RunKeeps(s, steps);
  }

  // The driver can get into this state.
  ghost predicate Reachable(s: State) {
    WellTyped(s) && exists s0, steps ::
      Initial(s0) && s0.policy.AttachOnce? && ValidRun(s0, steps) && After(s0, steps) == s
  }

  lemma ReachableInv(s: State)
    requires Reachable(s)
    ensures Inv(s)
  {
    hide Inv, WellTyped, Enabled, Apply, ValidRun, After, Initial;
    var s0, steps :| Initial(s0) && s0.policy.AttachOnce? && ValidRun(s0, steps) && After(s0, steps) == s;
    InitiallyOk(s0);
    RunKeeps(s0, steps);
  }
}
