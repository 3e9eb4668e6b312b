/**
 rocket_job.c in its own imperative form: rocket_job_run, rocket_job_handle_irq, rocket_reset
 and rocket_job_close executed without interference are runs of the state machine, so every
 property of runs holds of them.
 */
module Driver {
  import opened Options
  import opened Machine
  import opened Invariants
  import opened Runs
  import Launching
  import RunProof
  import P = Power
  import L = Locks
  import R = Refs

  // ---- uninterrupted calls as runs ----

  lemma OneStep(s: State, st: Step)
    requires Inv(s) && Enabled(s, st)
    ensures ValidRun(s, [st]) && After(s, [st]) == Apply(s, st) && Inv(Apply(s, st))
  {
    hide Inv, WellTyped, Enabled, Apply;
    Launching.InvTyped(s);
    StepKeeps(s, st);
    Launching.InvTyped(Apply(s, st));
    assert [st][1..] == [];
  }

  lemma OpStep(s: State, c: nat, op: CoreOp)
    requires Inv(s) && c < |s.cores| && WellTyped(s) && CoreEnabled(s, c, op)
    ensures ValidRun(s, [OnCore(c, op)]) && After(s, [OnCore(c, op)]) == CoreApply(s, c, op)
    ensures Inv(CoreApply(s, c, op)) && WellTyped(CoreApply(s, c, op))
  {
    hide Inv, WellTyped, CoreEnabled, CoreApply, ValidRun, After;
    OneStep(s, OnCore(c, op));
    Launching.InvTyped(CoreApply(s, c, op));
  }

  // Two uninterrupted pieces make a run.
  lemma Chain(s: State, a: seq<Step>, m: State, b: seq<Step>, e: State)
    requires ValidRun(s, a) && After(s, a) == m && ValidRun(m, b) && After(m, b) == e
    ensures ValidRun(s, a + b) && After(s, a + b) == e
  {
    hide WellTyped, Enabled, Apply, ValidRun, After;
    ThenRun(s, a, b);
  }

  lemma {:induction false} ThenRun(s: State, a: seq<Step>, b: seq<Step>)
    requires ValidRun(s, a) && ValidRun(After(s, a), b)
    ensures ValidRun(s, a + b) && After(s, a + b) == After(After(s, a), b)
    decreases |a|
  {
    hide WellTyped, Enabled, Apply;
    if a == [] {
      assert a + b == b;
    } else {
      assert (a + b)[0] == a[0] && (a + b)[1..] == a[1..] + b;
      ThenRun(Apply(s, a[0]), a[1..], b);
    }
  }

  // The steps of an interrupt that completes the job in flight.
  function IrqSteps(c: nat): seq<Step> {
    [OnCore(c, Interrupt)] + [OnCore(c, InterruptPower)] + [OnCore(c, InterruptClear)]
  }

  function IrqDone(s: State, c: nat, j: nat): State
    requires c < |s.cores| && j < |s.jobs|
  {
    var core := s.cores[c];
    s.(cores := s.cores[c := core.(flight := None, signalled := core.signalled + {s.jobs[j].fence})], pm := P.Put(s.pm))
  }

  ghost predicate Completing(s: State, c: nat, j: nat) {
    && c < |s.cores| && j < |s.jobs| && s.cores[c].flight == Some(j) && s.cores[c].lock.Unlocked?
    && s.jobs[j].next >= s.jobs[j].tasks
  }

  lemma IrqIsRun(s: State, c: nat, j: nat)
    requires Inv(s) && Completing(s, c, j)
    ensures ValidRun(s, IrqSteps(c)) && After(s, IrqSteps(c)) == IrqDone(s, c, j) && Inv(IrqDone(s, c, j))
  {
    hide Inv, WellTyped, ValidRun, After, IrqDone;
    Launching.InvTyped(s);
    IrqParts(s, c, j);
    IrqTogether(s, c, j);
    var s1 := Irq(s, c);
    OpStep(s, c, Interrupt);
    var s2 := IrqPower(s1, c);
    OpStep(s1, c, InterruptPower);
    OpStep(s2, c, InterruptClear);
    Chain(s, [OnCore(c, Interrupt)], s1, [OnCore(c, InterruptPower)], s2);
    Chain(s, [OnCore(c, Interrupt)] + [OnCore(c, InterruptPower)], s2, [OnCore(c, InterruptClear)], IrqDone(s, c, j));
  }

  lemma IrqParts(s: State, c: nat, j: nat)
    requires Inv(s) && Completing(s, c, j)
    ensures s.policy == AttachOnce && JobLive(s, j) && s.pm.refs > 0 && s.jobs[j].fence !in s.cores[c].signalled
    ensures s.faults == {} && |s.mmus| == |s.cores|
  {
    hide IoInv, Attached, Flights, PowerOk, History;
    assert CoreOk(c, s.cores[c], s.jobs);
    RunProof.LiveJob(s, j);
    Launching.Powered2(s, c);
  }

  lemma IrqTogether(s: State, c: nat, j: nat)
    requires WellTyped(s) && Completing(s, c, j)
    requires s.policy == AttachOnce && JobLive(s, j) && s.pm.refs > 0 && s.jobs[j].fence !in s.cores[c].signalled
    ensures Irq(s, c).cores[c].lock.IrqSignalled? && |Irq(s, c).cores| == |s.cores|
    ensures IrqClear(IrqPower(Irq(s, c), c), c) == IrqDone(s, c, j)
  {
    hide WellTyped;
  }

  // rocket_reset once drm_sched_stop has returned, up to drm_sched_start.
  function ResetSteps(c: nat): seq<Step> {
    [OnCore(c, ReleasePower)] + [OnCore(c, DetachCore)] + [OnCore(c, ClearFlight)] + [OnCore(c, ResumeCore)]
  }

  function ResetDone(s: State, c: nat): State
    requires c < |s.cores| && c < |s.mmus| && !s.cores[c].reset.Quiet?
  {
    var core := s.cores[c];
    s.(cores := s.cores[c := core.(flight := None, resetPending := false, reset := Resumable(core.reset.job))],
       mmus := if s.mmus[c].attached.Some? then s.mmus[c := Mmu(None, None)] else s.mmus,
       pm := if core.flight.Some? then P.Put(s.pm) else s.pm)
  }

  ghost predicate Resetting(s: State, c: nat) {
    c < |s.cores| == |s.mmus| && s.cores[c].reset.Stopped? && s.cores[c].lock.Unlocked?
  }

  lemma ResetIsRun(s: State, c: nat)
    requires Inv(s) && Resetting(s, c)
    ensures ValidRun(s, ResetSteps(c)) && After(s, ResetSteps(c)) == ResetDone(s, c) && Inv(ResetDone(s, c))
  {
    hide Inv, WellTyped, ValidRun, After, ResetDone;
    Launching.InvTyped(s);
    PowerHeld(s, c);
    ResetTogether(s, c);
    var a, b := [OnCore(c, ReleasePower)], [OnCore(c, DetachCore)];
    var d, e := [OnCore(c, ClearFlight)], [OnCore(c, ResumeCore)];
    var s1 := ResetPower(s, c);
    OpStep(s, c, ReleasePower);
    var s2 := ResetDetach(s1, c);
    OpStep(s1, c, DetachCore);
    Chain(s, a, s1, b, s2);
    ResetEnd(s2, c);
    Chain(s, a + b, s2, d + e, ResetDone(s, c));
    assert ResetSteps(c) == (a + b) + (d + e);
  }

  lemma ResetEnd(s: State, c: nat)
    requires Inv(s) && c < |s.cores| && s.cores[c].reset.Stopped? && s.cores[c].lock.ResetDetached?
    ensures ValidRun(s, [OnCore(c, ClearFlight)] + [OnCore(c, ResumeCore)])
    ensures After(s, [OnCore(c, ClearFlight)] + [OnCore(c, ResumeCore)]) == ResetResume(ResetClear(s, c), c)
    ensures Inv(ResetResume(ResetClear(s, c), c))
  {
    hide Inv, WellTyped, ValidRun, After;
    Launching.InvTyped(s);
    var s1 := ResetClear(s, c);
    OpStep(s, c, ClearFlight);
    OpStep(s1, c, ResumeCore);
    Chain(s, [OnCore(c, ClearFlight)], s1, [OnCore(c, ResumeCore)], ResetResume(s1, c));
  }

  lemma PowerHeld(s: State, c: nat)
    requires Inv(s) && Resetting(s, c)
    ensures s.cores[c].flight.Some? ==> s.pm.refs > 0
  {
    hide IoInv, CoresOk, Attached, Flights, PowerOk, History, WellTyped;
    if s.cores[c].flight.Some? {
      Launching.Powered2(s, c);
    }
  }

  lemma ResetTogether(s: State, c: nat)
    requires Resetting(s, c) && (s.cores[c].flight.Some? ==> s.pm.refs > 0)
    ensures ResetResume(ResetClear(ResetDetach(ResetPower(s, c), c), c), c) == ResetDone(s, c)
  {
    var s2 := ResetDetach(ResetPower(s, c), c);
    assert s2.cores == s.cores[c := s.cores[c].(lock := ResetDetached)];
    assert s2 == s.(cores := s2.cores, mmus := ResetDone(s, c).mmus, pm := ResetDone(s, c).pm);
  }

  // ---- rocket_job_run ----

  ghost predicate Starting(s: State, c: nat, j: nat)
    requires WellTyped(s)
  {
    j < |s.jobs| && s.jobs[j].core == c && JobEnabled(s, j, Begin) && s.cores[c].lock.Unlocked?
  }

  // After the fence, after the power, and after the attachment of the job's domain.
  function Begun(s: State, c: nat, j: nat): State
    requires c < |s.cores| && j < |s.jobs|
  {
    var q := s.cores[c].seqno + 1;
    s.(cores := s.cores[c := s.cores[c].(slot := Some(j), seqno := q)],
       jobs := s.jobs[j := s.jobs[j].(st := Active, fence := q)])
  }

  function SwitchedTo(s: State, c: nat, a: nat): State
    requires c < |s.mmus| && a in s.doms
  {
    if s.mmus[c].attached == Some(a) then s else s.(mmus := s.mmus[c := Mmu(Some(a), Some(s.doms[a].gen))])
  }

  function InFlight(s: State, c: nat, j: nat): State
    requires c < |s.cores|
  {
    SetCore(s, c, s.cores[c].(flight := Some(j)))
  }

  // The whole call; err says that an attach was needed and refused.
  function RunDone(s: State, c: nat, j: nat, a: nat, fail: nat, err: bool): State
    requires c < |s.cores| == |s.mmus| && j < |s.jobs| && a in s.doms
  {
    var s1 := Begun(s, c, j);
    if !P.GetOk(s.pm, fail) then s1
    else if err then SignalError(s1.(mmus := s.mmus[c := Mmu(None, None)]), c, s1.cores[c].seqno)
    else HwSubmit(InFlight(SwitchedTo(s1.(pm := P.Get(s.pm, fail)), c, a), c, j), c, j)
  }

  function RunSteps(s: State, c: nat, j: nat, fail: nat, err: bool): seq<Step> {
    [OnJob(j, Begin)] + [OnCore(c, Power(fail))]
    + if !P.GetOk(s.pm, fail) then []
      else [OnCore(c, Section(err))] + if err then [OnCore(c, Unpower)] + [OnCore(c, Fail)] else []
  }

  lemma RunIsRun(s: State, c: nat, j: nat, a: nat, fail: nat, err: bool)
    requires Inv(s) && Starting(s, c, j)
    requires JobDom(j) in s.domRefs.ptr && s.domRefs.ptr[JobDom(j)] == a && a in s.doms && |s.cores| == |s.mmus|
    requires err ==> s.mmus[c].attached != Some(a)
    ensures ValidRun(s, RunSteps(s, c, j, fail, err))
    ensures c < |s.cores| && After(s, RunSteps(s, c, j, fail, err)) == RunDone(s, c, j, a, fail, err)
    ensures Inv(RunDone(s, c, j, a, fail, err))
  {
    hide Inv, WellTyped, ValidRun, After, RunDone, Starting, Begun;
    Launching.InvTyped(s);
    var b, p := [OnJob(j, Begin)], [OnCore(c, Power(fail))];
    StartIs(s, c, j, fail);
    StartRun(s, c, j, fail);
    assert JobEnabled(s, j, Begin) by { Beginnable(s, c, j); }
    var s1 := JobApply(s, j, Begin);
    var s2 := RunPower(s1, c, fail);
    if !P.GetOk(s.pm, fail) {
      assert RunSteps(s, c, j, fail, err) == b + p;
      NoPower(s, c, j, a, fail, err);
    } else {
      PoweredIs(s, c, j, a, fail);
      var e := RunDone(s, c, j, a, fail, err);
      var rest := RunSteps(s, c, j, fail, err)[2..];
      if err {
        RefusedRun(s, s2, c, j, a, fail);
        assert rest == [OnCore(c, Section(true))] + [OnCore(c, Unpower)] + [OnCore(c, Fail)];
      } else {
        SectionOk(s, s2, c, j, a, fail);
        OpStep(s2, c, Section(false));
        assert rest == [OnCore(c, Section(false))];
      }
      Chain(s, b + p, s2, rest, e);
      assert RunSteps(s, c, j, fail, err) == (b + p) + rest;
    }
  }

  lemma StartRun(s: State, c: nat, j: nat, fail: nat)
    requires Inv(s) && Starting(s, c, j)
    ensures var s1 := JobApply(s, j, Begin);
      && c < |s1.cores| && !s1.cores[c].run.Idle?
      && var s2 := RunPower(s1, c, fail);
         && ValidRun(s, [OnJob(j, Begin)] + [OnCore(c, Power(fail))])
         && After(s, [OnJob(j, Begin)] + [OnCore(c, Power(fail))]) == s2
         && Inv(s2) && WellTyped(s2)
  {
    hide Inv, WellTyped, ValidRun, After, JobApply, Begun;
    Launching.InvTyped(s);
    StartIs(s, c, j, fail);
    var s1 := JobApply(s, j, Begin);
    OneStep(s, OnJob(j, Begin));
    Launching.InvTyped(s1);
    OpStep(s1, c, Power(fail));
    Chain(s, [OnJob(j, Begin)], s1, [OnCore(c, Power(fail))], RunPower(s1, c, fail));
  }

  lemma RefusedRun(s: State, s2: State, c: nat, j: nat, a: nat, fail: nat)
    requires Inv(s2) && Powered1(s, s2, c, j, a, fail) && s.mmus[c].attached != Some(a)
    ensures |s.cores| == |s.mmus| && j < |s.jobs| && a in s.doms
    ensures var steps := [OnCore(c, Section(true))] + [OnCore(c, Unpower)] + [OnCore(c, Fail)];
      && ValidRun(s2, steps) && After(s2, steps) == RunDone(s, c, j, a, fail, true)
      && Inv(RunDone(s, c, j, a, fail, true))
  {
    hide Inv, WellTyped, ValidRun, After, RunDone, Starting, Powered1;
    SectionRefused(s, s2, c, j, a, fail);
    var t, u, v := [OnCore(c, Section(true))], [OnCore(c, Unpower)], [OnCore(c, Fail)];
    var s3 := RunSection(s2, c, true);
    OpStep(s2, c, Section(true));
    var s4 := RunUnpower(s3, c);
    OpStep(s3, c, Unpower);
    OpStep(s4, c, Fail);
    Chain(s2, t, s3, u, s4);
    Chain(s2, t + u, s4, v, RunDone(s, c, j, a, fail, true));
  }

  // s2 is s with job j's run past rocket_device_pm_get.
  ghost predicate Powered1(s: State, s2: State, c: nat, j: nat, a: nat, fail: nat) {
    && WellTyped(s) && Starting(s, c, j) && Inv(s) && P.GetOk(s.pm, fail) && |s.cores| == |s.mmus| && WellTyped(s2)
    && JobDom(j) in s.domRefs.ptr && s.domRefs.ptr[JobDom(j)] == a && a in s.doms
    && c < |s.cores| && j < |s.jobs| && s2 == PoweredState(s, c, j, fail)
  }

  function PoweredState(s: State, c: nat, j: nat, fail: nat): State
    requires c < |s.cores| && j < |s.jobs|
  {
    var b := Begun(s, c, j);
    b.(cores := s.cores[c := b.cores[c].(run := Powered(j))], pm := P.Get(s.pm, fail))
  }

  lemma PoweredIs(s: State, c: nat, j: nat, a: nat, fail: nat)
    requires Inv(s) && Starting(s, c, j) && P.GetOk(s.pm, fail)
    ensures c < |s.cores| && j < |s.jobs| && JobEnabled(s, j, Begin)
    ensures var s1 := JobApply(s, j, Begin);
      c < |s1.cores| && s1.cores[c].run.Fenced? && RunPower(s1, c, fail) == PoweredState(s, c, j, fail)
  {
    hide Inv, WellTyped, JobApply;
    StartIs(s, c, j, fail);
    var core := Begun(s, c, j).cores[c];
    assert s.cores[c := core.(run := Fenced(j))][c := core.(run := Powered(j))]
        == s.cores[c := core.(run := Powered(j))];
  }

  lemma StartIs(s: State, c: nat, j: nat, fail: nat)
    requires Inv(s) && Starting(s, c, j)
    ensures c < |s.cores|
    ensures var s1 := JobApply(s, j, Begin);
      && |s1.cores| == |s.cores| && s1.cores[c].run.Fenced? && s1.cores[c].run.job == j
      && s1 == Begun(s, c, j).(cores := s1.cores)
      && s1.cores == s.cores[c := Begun(s, c, j).cores[c].(run := Fenced(j))]
      && s.cores[c].run.Idle?
      && (s.faults == {} && s.policy == AttachOnce && P.Held(s.pm))
      && s.cores[c].flight.None? && s.jobs[j].next < s.jobs[j].tasks && s1.cores[c].seqno !in s.cores[c].signalled
  {
    hide IoInv, Attached, Flights, History;
    assert CoreOk(c, s.cores[c], s.jobs);
  }

  lemma NoPower(s: State, c: nat, j: nat, a: nat, fail: nat, err: bool)
    requires Inv(s) && Starting(s, c, j) && !P.GetOk(s.pm, fail) && a in s.doms && |s.cores| == |s.mmus|
    ensures c < |s.cores|
    ensures var s1 := JobApply(s, j, Begin);
      c < |s1.cores| && s1.cores[c].run.Fenced? && RunPower(s1, c, fail) == RunDone(s, c, j, a, fail, err)
  {
    hide WellTyped, JobApply, Inv;
    StartIs(s, c, j, fail);
  }

  function Idled(s: State, c: nat): State
    requires c < |s.cores|
  {
    SetCore(s, c, s.cores[c].(run := Idle))
  }

  lemma PoweredShape(s: State, s2: State, c: nat, j: nat, a: nat, fail: nat)
    requires Powered1(s, s2, c, j, a, fail)
    ensures c < |s.cores| == |s2.cores| == |s2.mmus| && j < |s2.jobs| == |s.jobs| && CanSection(s2, c, j, a)
    ensures Idled(s2, c) == Begun(s, c, j).(pm := P.Get(s.pm, fail))
    ensures s2.jobs[j].fence == s2.cores[c].seqno && s2.cores[c].seqno !in s2.cores[c].signalled && 0 < s2.pm.refs
  {
    hide Inv, WellTyped, CanSection;
    assert s.cores[c].run.Idle? && s.cores[c].seqno + 1 !in s.cores[c].signalled by { FreshFence(s, c, j, fail); }
    PoweredReady(s, s2, c, j, a, fail);
    assert s2.cores[c := s2.cores[c].(run := Idle)] == s.cores[c := Begun(s, c, j).cores[c]];
  }

  lemma PoweredReady(s: State, s2: State, c: nat, j: nat, a: nat, fail: nat)
    requires Powered1(s, s2, c, j, a, fail)
    ensures CanSection(s2, c, j, a)
  {
    hide Inv, WellTyped, Starting;
    ReadyFacts(s, c, j);
  }

  lemma ReadyFacts(s: State, c: nat, j: nat)
    requires Inv(s) && WellTyped(s) && Starting(s, c, j)
    ensures c < |s.cores| && JobLive(s, j) && s.cores[c].flight.None? && s.cores[c].lock.Unlocked?
    ensures s.faults == {} && s.policy == AttachOnce
  {
    StartIs(s, c, j, 0);
    JobIsLive(s, j);
    hide IoInv, CoresOk, Attached, Flights, PowerOk, History, WellTyped;
  }

  ghost predicate CanSection(s: State, c: nat, j: nat, a: nat) {
    && c < |s.cores| == |s.mmus| && j < |s.jobs| && s.cores[c].run == Powered(j) && JobLive(s, j)
    && s.domRefs.ptr[JobDom(j)] == a && s.cores[c].flight.None? && s.cores[c].lock.Unlocked?
    && s.faults == {} && s.policy == AttachOnce
  }

  lemma SectionShape(s: State, c: nat, j: nat, a: nat)
    requires WellTyped(s) && CanSection(s, c, j, a)
    ensures CoreEnabled(s, c, Section(false))
    ensures RunSection(s, c, false) == HwSubmit(InFlight(SwitchedTo(Idled(s, c), c, a), c, j), c, j)
  {
    hide WellTyped;
  }

  lemma RefusedShape(s: State, c: nat, j: nat, a: nat)
    requires WellTyped(s) && CanSection(s, c, j, a) && s.mmus[c].attached != Some(a) && s.pm.refs > 0
    ensures CoreEnabled(s, c, Section(true))
    ensures var s3 := RunSection(s, c, true);
      && |s3.cores| == |s.cores| && s3.cores[c].run == Refused(j)
      && var s4 := RunUnpower(s3, c);
         && |s4.cores| == |s.cores| && s4.cores[c].run == Unpowered(j)
         && Idled(s4, c) == Idled(s, c).(mmus := s.mmus[c := Mmu(None, None)], pm := P.Put(s.pm))
         && s4.jobs == s.jobs && s4.cores[c].signalled == s.cores[c].signalled
         && s4.cores[c].seqno == s.cores[c].seqno
  {
    hide WellTyped;
  }

  lemma FailShape(s: State, c: nat)
    requires WellTyped(s) && c < |s.cores| && s.cores[c].run.Unpowered?
    ensures CoreEnabled(s, c, Fail) && s.cores[c].run.job < |s.jobs|
    ensures RunFail(s, c) == SignalError(Idled(s, c), c, s.jobs[s.cores[c].run.job].fence)
  {
    assert CoreTyped(|s.jobs|, s.cores[c]);
    hide WellTyped;
  }

  lemma SectionOk(s: State, s2: State, c: nat, j: nat, a: nat, fail: nat)
    requires Powered1(s, s2, c, j, a, fail)
    ensures |s2.cores| == |s.cores| && c < |s.cores|
    ensures CoreEnabled(s2, c, Section(false)) && CoreApply(s2, c, Section(false)) == RunDone(s, c, j, a, fail, false)
  {
    hide WellTyped, Inv, Starting, HwSubmit, CanSection;
    PoweredShape(s, s2, c, j, a, fail);
    SectionShape(s2, c, j, a);
  }

  lemma SectionRefused(s: State, s2: State, c: nat, j: nat, a: nat, fail: nat)
    requires Powered1(s, s2, c, j, a, fail) && s.mmus[c].attached != Some(a)
    ensures |s2.cores| == |s.cores| == |s.mmus| && c < |s.cores| && j < |s.jobs| && a in s.doms && WellTyped(s2)
    ensures CoreEnabled(s2, c, Section(true))
    ensures var s3 := RunSection(s2, c, true);
      && |s3.cores| == |s.cores| && s3.cores[c].run == Refused(j)
      && RunUnpower(s3, c).cores[c].run == Unpowered(j) && |RunUnpower(s3, c).cores| == |s.cores|
      && (WellTyped(RunUnpower(s3, c)) ==> RunFail(RunUnpower(s3, c), c) == RunDone(s, c, j, a, fail, true))
  {
    hide WellTyped, Inv, Starting, CanSection, RunSection, RunUnpower, RunFail;
    PoweredShape(s, s2, c, j, a, fail);
    RefusedShape(s2, c, j, a);
    assert P.Put(P.Get(s.pm, fail)) == s.pm by { HeldAt(s, c, j, fail); }
    var s4 := RunUnpower(RunSection(s2, c, true), c);
    if WellTyped(s4) {
      FailShape(s4, c);
      assert Idled(s4, c) == Begun(s, c, j).(mmus := s.mmus[c := Mmu(None, None)]);
    }
  }

  lemma HeldAt(s: State, c: nat, j: nat, fail: nat)
    requires Inv(s) && Starting(s, c, j) && P.GetOk(s.pm, fail)
    ensures P.Put(P.Get(s.pm, fail)) == s.pm
  {
    hide IoInv, CoresOk, Attached, Flights, History, WellTyped;
    P.UnitKept(s.pm, fail);
  }

  lemma Beginnable(s: State, c: nat, j: nat)
    requires WellTyped(s) && Starting(s, c, j)
    ensures j < |s.jobs| && JobEnabled(s, j, Begin)
  {
  }

  lemma QueuedHeld(s: State, j: nat)
    requires Inv(s) && Sched(j) in s.jobRefs.ptr
    ensures s.jobRefs.ptr[Sched(j)] in s.jobRefs.kref
  {
    hide DomHolders, DomLinks, Gens, Spaces, OnlyOpen, BoRefs, JobRefs, CoresOk, Attached, Flights, PowerOk, History,
      GrantsOk, WellTyped;
    R.HolderLive(s.jobRefs, Sched(j));
  }

  lemma JobIsLive(s: State, j: nat)
    requires Inv(s) && j < |s.jobs| && s.jobs[j].st.Queued?
    ensures JobLive(s, j)
  {
    hide R.Balanced, Gens, Spaces, OnlyOpen, BoRefs, CoresOk, Attached, Flights, PowerOk, History, GrantsOk, WellTyped;
    assert JobOk(j, s.jobs[j], s.threads, s.jobRefs);
    QueuedHeld(s, j);
  }

  // ---- rocket_job_close ----

  // Does the file's pool hold the domain attached to this core?
  ghost predicate Mine(s: State, f: nat, m: Mmu) {
    exists i: nat | i < MAX_DOMAINS :: Slot(f, i) in s.domRefs.ptr && m.attached == Some(s.domRefs.ptr[Slot(f, i)])
  }

  ghost function ClosedTo(s: State, f: nat, k: nat): State
    requires f < |s.files| && k <= |s.mmus|
  {
    s.(mmus := seq(|s.mmus|, c requires 0 <= c < |s.mmus| =>
                 if c < k && Mine(s, f, s.mmus[c]) then Mmu(None, None) else s.mmus[c]),
       files := s.files[f := if k < |s.mmus| then Detaching(k) else Draining(0)])
  }

  function CloseSteps(f: nat, k: nat): seq<Step> {
    seq(k, i => OnFile(f, CloseCore))
  }

  ghost predicate Closing(s: State, f: nat) {
    f < |s.files| && s.files[f] == Detaching(0) && forall c | 0 <= c < |s.cores| :: s.cores[c].lock.Unlocked?
  }

  lemma {:induction false} CloseIsRun(s: State, f: nat, k: nat)
    requires Inv(s) && Closing(s, f) && 0 < |s.mmus| == |s.cores| && k <= |s.mmus|
    ensures ValidRun(s, CloseSteps(f, k)) && After(s, CloseSteps(f, k)) == ClosedTo(s, f, k) && Inv(ClosedTo(s, f, k))
  {
    hide Inv, WellTyped, ValidRun, After, Enabled, Apply, ClosedTo;
    if k == 0 {
      assert CloseSteps(f, k) == [];
      NoneClosed(s, f);
      EmptyRun(s);
    } else {
      CloseIsRun(s, f, k - 1);
      var m := ClosedTo(s, f, k - 1);
      Launching.InvTyped(m);
      NextClosed(s, f, k);
      OneStep(m, OnFile(f, CloseCore));
      Chain(s, CloseSteps(f, k - 1), m, [OnFile(f, CloseCore)], ClosedTo(s, f, k));
      assert CloseSteps(f, k) == CloseSteps(f, k - 1) + [OnFile(f, CloseCore)];
    }
  }

  lemma EmptyRun(s: State)
    requires Inv(s)
    ensures ValidRun(s, []) && After(s, []) == s
  {
    hide IoInv, CoresOk, Attached, Flights, PowerOk, History, WellTyped;
  }

  lemma NoneClosed(s: State, f: nat)
    requires Closing(s, f) && 0 < |s.mmus|
    ensures ClosedTo(s, f, 0) == s
  {
    assert ClosedTo(s, f, 0).mmus == s.mmus;
  }

  lemma NextClosed(s: State, f: nat, k: nat)
    requires Closing(s, f) && 0 < k <= |s.mmus| == |s.cores| && WellTyped(ClosedTo(s, f, k - 1))
    ensures Enabled(ClosedTo(s, f, k - 1), OnFile(f, CloseCore))
    ensures Apply(ClosedTo(s, f, k - 1), OnFile(f, CloseCore)) == ClosedTo(s, f, k)
  {
    hide WellTyped;
    var m := ClosedTo(s, f, k - 1);
    assert Apply(m, OnFile(f, CloseCore)).mmus == ClosedTo(s, f, k).mmus;
  }

  // ---- the code ----

  // The device: what the job code updates, beside the state `io` that the ioctl code owns.
  class Npu {
    var io: State
    var jobs: seq<Job>
    var cores: seq<Core>
    var mmus: seq<Mmu>
    var launches: seq<Launch>
    ghost var stale: set<Stale>
    const unit: P.PowerUnit

    ghost function Abs(): State
      reads this, unit, unit.usage
    {
      io.(jobs := jobs, cores := cores, mmus := mmus, launches := launches, stale := stale, pm := unit.Abs())
    }

    constructor (s: State, unit: P.PowerUnit)
      requires s.pm == unit.Abs()
      ensures Abs() == s && this.unit == unit
    {
      io, jobs, cores, mmus, launches, stale := s, s.jobs, s.cores, s.mmus, s.launches, s.stale;
      this.unit := unit;
    }

    // rocket_job_hw_submit
    method Submit(c: nat, j: nat)
      requires c < |cores| && c < |mmus| && j < |jobs|
      modifies this`jobs, this`launches, this`stale
      ensures Abs() == HwSubmit(old(Abs()), c, j)
    {
      if cores[c].resetPending {
        return;
      }
      jobs := jobs[j := jobs[j].(next := jobs[j].next + 1)];
      stale := stale + if jobs[j].submitter in io.maps then {} else {TaskArray(j)};
      launches := launches + [Launch(c, j, mmus[c].hw)];
    }

    // rocket_job_run under job_lock: keep or switch the attachment, then launch.
    method AttachAndSubmit(c: nat, j: nat, refuse: bool) returns (attachErr: bool, ghost log: seq<L.Action>)
      requires c < |cores| == |mmus| && j < |jobs|
      requires JobDom(j) in io.domRefs.ptr && io.domRefs.ptr[JobDom(j)] in io.doms
      modifies this`jobs, this`cores, this`mmus, this`launches, this`stale
      ensures attachErr == (refuse && old(mmus[c]).attached != Some(io.domRefs.ptr[JobDom(j)]))
      ensures Abs() ==
        if attachErr then old(Abs()).(mmus := old(mmus)[c := Mmu(None, None)])
        else HwSubmit(InFlight(SwitchedTo(old(Abs()), c, io.domRefs.ptr[JobDom(j)]), c, j), c, j)
      ensures log == L.RunSection(c, old(mmus[c]).attached.Some?,
                                  old(mmus[c]).attached != Some(io.domRefs.ptr[JobDom(j)]), refuse)
    {
      var domain := io.domRefs.ptr[JobDom(j)];
      attachErr := false;
      ghost var compared := [L.Use(L.Attached(c))];
      ghost var switched: seq<L.Action> := [];
      ghost var started: seq<L.Action> := [];
      if mmus[c].attached != Some(domain) {
        ghost var detached: seq<L.Action> := [];
        ghost var asked := [L.Use(L.Attached(c))];
        if mmus[c].attached.Some? {
          detached := [L.Touch(c)];
          mmus := mmus[c := Mmu(None, None)];
        }
        ghost var attached := [L.Touch(c)];
        attachErr := refuse;
        switched := L.Guarded(L.PmLock, asked + detached + attached) + [L.Use(L.Attached(c))];
        mmus := mmus[c := if attachErr then Mmu(None, None) else Mmu(Some(domain), Some(io.doms[domain].gen))];
      }
      if !attachErr {
        started := [L.Use(L.InFlight(c))];
        cores := cores[c := cores[c].(flight := Some(j))];
        Submit(c, j);
      }
      log := L.Guarded(L.JobLock(c), compared + switched + started);
    }

    // rocket_job_run: None is its NULL return.  The driver's part of the call is a run of the
    // state machine.
    method RunJob(c: nat, j: nat, fail: nat, refuse: bool) returns (fence: Option<nat>, ghost log: seq<L.Action>)
      requires Inv(Abs()) && WellTyped(Abs()) && j < |jobs| && jobs[j].core == c < |cores| == |mmus|
      requires jobs[j].next == jobs[j].tasks || Starting(Abs(), c, j)
      requires JobDom(j) in io.domRefs.ptr && io.domRefs.ptr[JobDom(j)] in io.doms
      modifies this`jobs, this`cores, this`mmus, this`launches, this`stale, unit, unit.usage
      ensures fence.None? <==> old(jobs[j].next == jobs[j].tasks)
      ensures fence.None? ==> Abs() == old(Abs())
      ensures fence.Some? ==>
        var err := refuse && old(mmus[c]).attached != Some(io.domRefs.ptr[JobDom(j)]);
        var steps := RunSteps(old(Abs()), c, j, fail, err);
        ValidRun(old(Abs()), steps) && Abs() == After(old(Abs()), steps) && Inv(Abs())
      ensures log == L.Script(RunCall(old(Abs()), c, j, fail, refuse))
    {
      hide Inv, WellTyped, ValidRun, After, Starting, Enabled, RunSteps, RunDone, HwSubmit, InFlight, SwitchedTo,
        L.Script, L.RunBody, L.RunSection, L.Pm, L.Signal, L.Guarded;
      ghost var s := Abs();
      if jobs[j].next == jobs[j].tasks {
        RunLog(RunCall(s, c, j, fail, refuse), [], []);
        return None, L.Guarded(L.Worker(c), [] + []);
      }
      ghost var domain := io.domRefs.ptr[JobDom(j)];
      ghost var err := refuse && mmus[c].attached != Some(domain);
      RunIsRun(s, c, j, domain, fail, err);
      FreshFence(s, c, j, fail);
      RunEnds(s, c, j, domain, fail, err);
      var q := cores[c].seqno + 1;
      cores := cores[c := cores[c].(slot := Some(j), seqno := q)];
      jobs := jobs[j := jobs[j].(st := Active, fence := q)];
      fence := Some(q);
      assert Abs() == Begun(s, c, j);
      var powered, got := unit.PmGet(fail);
      ghost var ran: seq<L.Action> := [];
      if powered {
        var attachErr, section := AttachAndSubmit(c, j, refuse);
        ghost var undone: seq<L.Action> := [];
        if attachErr {
          var warned, put := unit.PmPut();
          cores := cores[c := cores[c].(failed := cores[c].failed + {q})];
          cores := cores[c := cores[c].(signalled := cores[c].signalled + {q})];
          undone := put + L.Signal(c);
        }
        ran := section + undone;
      }
      log := L.Guarded(L.Worker(c), got + ran);
      RunLog(RunCall(s, c, j, fail, refuse), got, ran);
    }

    // rocket_job_handle_irq: nothing, one more launch, or completion.
    method HandleIrq(c: nat) returns (ghost log: seq<L.Action>)
      requires Inv(Abs()) && c < |cores| == |mmus| && cores[c].lock.Unlocked?
      requires cores[c].flight.Some? ==> cores[c].flight.value < |jobs|
      modifies this`jobs, this`cores, this`launches, this`stale, unit, unit.usage
      ensures var steps := InterruptSteps(old(Abs()), c);
        ValidRun(old(Abs()), steps) && Abs() == After(old(Abs()), steps) && Inv(Abs())
      ensures log == L.Script(IrqCall(old(Abs()), c))
    {
      hide Inv, WellTyped, ValidRun, After, IrqDone, InterruptSteps;
      InterruptIsRun(Abs(), c);
      ghost var use := [L.Use(L.InFlight(c))];
      ghost var busy: seq<L.Action> := [];
      if cores[c].flight.Some? {
        ghost var done: seq<L.Action> := [];
        var job := cores[c].flight.value;
        if jobs[job].next < jobs[job].tasks {
          Submit(c, job);
          return L.Guarded(L.JobLock(c), use + (use + use + done));
        }
        IrqEnd(Abs(), c, job);
        IrqParts(Abs(), c, job);
        cores := cores[c := cores[c].(signalled := cores[c].signalled + {jobs[job].fence})];
        ghost var signal := L.Signal(c);
        var warned, put := unit.PmPut();
        cores := cores[c := cores[c].(flight := None)];
        done := signal + put + use;
        busy := use + use + done;
      }
      log := L.Guarded(L.JobLock(c), use + busy);
    }

    // rocket_reset between drm_sched_stop and drm_sched_start.
    method Reset(c: nat) returns (ghost log: seq<L.Action>)
      requires Inv(Abs()) && Resetting(Abs(), c)
      modifies this`cores, this`mmus, unit, unit.usage
      ensures c < |cores| && c < |mmus| && cores[c].flight.None? && !cores[c].resetPending && mmus[c] == Mmu(None, None)
      ensures forall k | 0 <= k < |cores| && k != c && k < |mmus| ::
        k < |old(cores)| && k < |old(mmus)| && cores[k] == old(cores)[k] && mmus[k] == old(mmus)[k]
      ensures jobs == old(jobs) && launches == old(launches)
      ensures log == L.Script(L.Reset(c, old(cores[c]).flight.Some?, old(mmus[c]).attached.Some?))
      ensures ValidRun(old(Abs()), ResetSteps(c)) && Abs() == After(old(Abs()), ResetSteps(c)) && Inv(Abs())
    {
      hide Inv, WellTyped, ValidRun, After;
      ResetIsRun(Abs(), c);
      if mmus[c].attached.None? {
        DetachedHw(Abs(), c);
      }
      ghost var asked := [L.Use(L.InFlight(c))];
      ghost var put: seq<L.Action> := [];
      ghost var detached: seq<L.Action> := [];
      if cores[c].flight.Some? {
        PowerHeld(Abs(), c);
        var warned;
        warned, put := unit.PmPutNoidle();
      }
      if mmus[c].attached.Some? {
        detached := L.Guarded(L.PmLock, [L.Touch(c)]) + [L.Use(L.Attached(c))];
        mmus := mmus[c := Mmu(None, None)];
      }
      cores := cores[c := cores[c].(flight := None)];
      ghost var body := asked + put + [L.Use(L.Attached(c))] + detached + [L.Use(L.InFlight(c))];
      log := L.Guarded(L.Worker(c), L.Guarded(L.JobLock(c), body));
      cores := cores[c := cores[c].(resetPending := false, reset := Resumable(cores[c].reset.job))];
    }

    // rocket_job_close once the file's entities are destroyed: every core, every pool slot.
    method JobClose(f: nat) returns (ghost log: seq<L.Action>, ghost calls: seq<L.Call>)
      requires Inv(Abs()) && Closing(Abs(), f) && 0 < |mmus| == |cores|
      modifies this`io, this`mmus
      ensures ValidRun(old(Abs()), CloseSteps(f, |mmus|)) && Abs() == After(old(Abs()), CloseSteps(f, |mmus|))
      ensures Inv(Abs()) && io.domRefs == old(io).domRefs
      ensures forall k, i: nat | 0 <= k < |mmus| && i < MAX_DOMAINS && Slot(f, i) in io.domRefs.ptr ::
        mmus[k].attached != Some(io.domRefs.ptr[Slot(f, i)])
      ensures log == L.Scripts(calls) && |calls| == |mmus|
      ensures forall k | 0 <= k < |calls| :: ClosesCore(old(Abs()), f, k, calls[k])
    {
      hide Inv, WellTyped, ValidRun, After, Enabled, Apply, L.Script, L.Scripts, L.Probes, L.Guarded, ClosesCore;
      ghost var s := Abs();
      CloseIsRun(s, f, |mmus|);
      log, calls := [], [];
      assert log == L.Scripts(calls) by { NoScripts(); }
      var core := 0;
      while core < |mmus|
        invariant 0 <= core <= |mmus| == |s.mmus| && io == old(io)
        invariant forall k | 0 <= k < |mmus| ::
          mmus[k] == if k < core && Mine(s, f, s.mmus[k]) then Mmu(None, None) else s.mmus[k]
        invariant log == L.Scripts(calls) && |calls| == core
        invariant forall k | 0 <= k < core :: ClosesCore(s, f, k, calls[k])
      {
        ghost var filled: seq<bool> := [];
        ghost var probes: seq<L.Action> := [];
        ghost var detach: seq<L.Action> := [];
        NoProbes(core, f);
        var i := 0;
        while i < MAX_DOMAINS
          invariant 0 <= i <= MAX_DOMAINS && |mmus| == |s.mmus| && mmus[core] == s.mmus[core] && io == old(io)
          invariant forall d: nat | d < i && Slot(f, d) in io.domRefs.ptr ::
            s.mmus[core].attached != Some(io.domRefs.ptr[Slot(f, d)])
          invariant forall k | 0 <= k < |mmus| ::
            mmus[k] == if k < core && Mine(s, f, s.mmus[k]) then Mmu(None, None) else s.mmus[k]
          invariant |filled| == i && forall d | 0 <= d < i :: filled[d] == (Slot(f, d) in io.domRefs.ptr)
          invariant probes == L.Probes(core, f, filled) && detach == []
        {
          ghost var full := Slot(f, i) in io.domRefs.ptr;
          MoreProbes(core, f, filled, full);
          filled := filled + [full];
          ghost var compared: seq<L.Action> := [];
          if full {
            compared := [L.Use(L.Attached(core))];
          }
          probes := probes + [L.Use(L.Slots(f))] + compared;
          if Slot(f, i) in io.domRefs.ptr && mmus[core].attached == Some(io.domRefs.ptr[Slot(f, i)]) {
            detach := [L.Touch(core)];
            detach := detach + [L.Use(L.Attached(core))];
            mmus := mmus[core := Mmu(None, None)];
            break;
          }
          i := i + 1;
        }
        ghost var call := L.CloseCore(core, f, filled, i < MAX_DOMAINS);
        CloseScript(core, f, filled, i < MAX_DOMAINS);
        L.ScriptsAppend(calls, call);
        CloseRecorded(s, f, core, call);
        log := log + L.Guarded(L.JobLock(core), probes + detach);
        calls := calls + [call];
        core := core + 1;
      }
      io := io.(files := io.files[f := Draining(0)]);
      assert mmus == ClosedTo(s, f, |mmus|).mmus;
    }
  }

  // The branches a run takes.
  function RunCall(s: State, c: nat, j: nat, fail: nat, refuse: bool): L.Call
    requires c < |s.mmus| && j < |s.jobs| && JobDom(j) in s.domRefs.ptr
  {
    L.Run(c, s.jobs[j].next == s.jobs[j].tasks, P.GetOk(s.pm, fail), s.mmus[c].attached.Some?,
          s.mmus[c].attached != Some(s.domRefs.ptr[JobDom(j)]), refuse)
  }

  lemma RunLog(call: L.Call, got: seq<L.Action>, ran: seq<L.Action>)
    requires call.Run? && (call.empty ==> got == [] && ran == [])
    requires !call.empty ==>
      got == L.Pm(call.powered)
      && ran == L.If(call.powered, L.RunSection(call.core, call.held, call.switch, call.refused)
                                   + L.If(call.switch && call.refused, L.Pm(true) + L.Signal(call.core)))
    ensures L.Script(call) == L.Guarded(L.Worker(call.core), got + ran)
  {
  }

  function IrqCall(s: State, c: nat): L.Call
    requires c < |s.cores| && (s.cores[c].flight.Some? ==> s.cores[c].flight.value < |s.jobs|)
  {
    var fl := s.cores[c].flight;
    L.Irq(c, fl.Some?, fl.Some? && s.jobs[fl.value].next >= s.jobs[fl.value].tasks)
  }

  // The call that closes core k for file f: all slots are looked at, or up to the one attached.
  ghost predicate ClosesCore(s: State, f: nat, k: nat, call: L.Call) {
    && call.CloseCore? && call.core == k && call.file == f && k < |s.mmus|
    && call.mine == Mine(s, f, s.mmus[k])
    && 0 < |call.filled| <= MAX_DOMAINS && (!call.mine ==> |call.filled| == MAX_DOMAINS)
    && (forall i | 0 <= i < |call.filled| :: call.filled[i] == (Slot(f, i) in s.domRefs.ptr))
  }

  lemma NoScripts()
    ensures L.Scripts([]) == []
  {
  }

  lemma CloseRecorded(s: State, f: nat, k: nat, call: L.Call)
    requires call.CloseCore? && call.core == k && call.file == f && k < |s.mmus|
    requires 0 < |call.filled| <= MAX_DOMAINS && (!call.mine ==> |call.filled| == MAX_DOMAINS)
    requires forall i | 0 <= i < |call.filled| :: call.filled[i] == (Slot(f, i) in s.domRefs.ptr)
    requires call.mine == Mine(s, f, s.mmus[k])
    ensures ClosesCore(s, f, k, call)
  {
  }

  lemma NoProbes(core: nat, f: nat)
    ensures L.Probes(core, f, []) == []
  {
  }

  lemma MoreProbes(core: nat, f: nat, filled: seq<bool>, full: bool)
    ensures L.Probes(core, f, filled + [full])
         == L.Probes(core, f, filled) + [L.Use(L.Slots(f))] + L.If(full, [L.Use(L.Attached(core))])
  {
    assert (filled + [full])[..|filled|] == filled;
  }

  lemma CloseScript(core: nat, f: nat, filled: seq<bool>, mine: bool)
    ensures L.Script(L.CloseCore(core, f, filled, mine))
         == L.Guarded(L.JobLock(core), L.Probes(core, f, filled)
                                       + L.If(mine, [L.Touch(core)] + [L.Use(L.Attached(core))]))
  {
  }

  // A core without an attached domain translates through none.
  lemma DetachedHw(s: State, c: nat)
    requires Inv(s) && c < |s.mmus| && s.mmus[c].attached.None?
    ensures s.mmus[c] == Mmu(None, None)
  {
    hide IoInv, CoresOk, Flights, PowerOk, History, WellTyped;
    assert AttachOk(c, s.mmus[c], s.doms, s.domRefs.ptr, s.files);
  }

  function InterruptSteps(s: State, c: nat): seq<Step>
    requires c < |s.cores| && (s.cores[c].flight.Some? ==> s.cores[c].flight.value < |s.jobs|)
  {
    var fl := s.cores[c].flight;
    if fl.Some? && s.jobs[fl.value].next >= s.jobs[fl.value].tasks then IrqSteps(c) else [OnCore(c, Interrupt)]
  }

  lemma InterruptIsRun(s: State, c: nat)
    requires Inv(s) && c < |s.cores| == |s.mmus| && s.cores[c].lock.Unlocked?
    requires s.cores[c].flight.Some? ==> s.cores[c].flight.value < |s.jobs|
    ensures var steps := InterruptSteps(s, c); var fl := s.cores[c].flight;
      && ValidRun(s, steps) && Inv(After(s, steps))
      && After(s, steps) ==
         if fl.None? then s
         else if s.jobs[fl.value].next < s.jobs[fl.value].tasks then HwSubmit(s, c, fl.value)
         else IrqDone(s, c, fl.value)
  {
    hide Inv, WellTyped, ValidRun, After, IrqDone, Irq;
    Launching.InvTyped(s);
    var fl := s.cores[c].flight;
    if fl.Some? && s.jobs[fl.value].next >= s.jobs[fl.value].tasks {
      IrqIsRun(s, c, fl.value);
    } else {
      OpStep(s, c, Interrupt);
      IrqSimple(s, c);
    }
  }

  lemma IrqSimple(s: State, c: nat)
    requires Inv(s) && WellTyped(s) && c < |s.cores| == |s.mmus| && s.cores[c].lock.Unlocked?
    requires s.cores[c].flight.Some? ==>
      s.cores[c].flight.value < |s.jobs| && s.jobs[s.cores[c].flight.value].next < s.jobs[s.cores[c].flight.value].tasks
    ensures Irq(s, c) == if s.cores[c].flight.None? then s else HwSubmit(s, c, s.cores[c].flight.value)
  {
    if s.cores[c].flight.Some? {
      FlightLive(s, c);
    }
    hide Inv, WellTyped;
  }

  lemma FlightLive(s: State, c: nat)
    requires Inv(s) && c < |s.cores| && s.cores[c].lock.Unlocked? && s.cores[c].flight.Some?
    ensures s.cores[c].flight.value < |s.jobs| && JobLive(s, s.cores[c].flight.value)
  {
    hide IoInv, Attached, Flights, PowerOk, History;
    assert CoreOk(c, s.cores[c], s.jobs);
    RunProof.LiveJob(s, s.cores[c].flight.value);
  }

  lemma IrqEnd(s: State, c: nat, j: nat)
    requires c < |s.cores| && j < |s.jobs|
    ensures IrqDone(s, c, j).cores
         == s.cores[c := s.cores[c].(flight := None, signalled := s.cores[c].signalled + {s.jobs[j].fence})]
    ensures IrqDone(s, c, j) == s.(cores := IrqDone(s, c, j).cores, pm := P.Put(s.pm))
  {
  }

  // The three ends of RunDone.
  lemma RunEnds(s: State, c: nat, j: nat, a: nat, fail: nat, err: bool)
    requires c < |s.cores| == |s.mmus| && j < |s.jobs| && a in s.doms
    ensures !P.GetOk(s.pm, fail) ==> RunDone(s, c, j, a, fail, err) == Begun(s, c, j)
    ensures P.GetOk(s.pm, fail) && err ==>
      RunDone(s, c, j, a, fail, err)
      == SignalError(Begun(s, c, j).(mmus := s.mmus[c := Mmu(None, None)]), c, s.cores[c].seqno + 1)
    ensures P.GetOk(s.pm, fail) && !err ==>
      RunDone(s, c, j, a, fail, err)
      == HwSubmit(InFlight(SwitchedTo(Begun(s, c, j).(pm := P.Get(s.pm, fail)), c, a), c, j), c, j)
  {
  }

  // The new fence is unsignalled, and getting and putting power back changes nothing.
  lemma FreshFence(s: State, c: nat, j: nat, fail: nat)
    requires Inv(s) && WellTyped(s) && Starting(s, c, j)
    ensures c < |s.cores| && s.cores[c].seqno + 1 !in s.cores[c].signalled && s.cores[c].run.Idle?
    ensures if P.GetOk(s.pm, fail) then P.Put(P.Get(s.pm, fail)) == s.pm else P.Get(s.pm, fail) == s.pm
    ensures P.GetOk(s.pm, fail) ==> P.Get(s.pm, fail).refs > 0
  {
    StartIs(s, c, j, fail);
    hide Inv, WellTyped;
    P.UnitKept(s.pm, fail);
  }

  // Such a call launches exactly if the unit powers up, no attach is refused and no reset is
  // pending, and then through the job's own domain.
  lemma RunLaunches(s: State, c: nat, j: nat, a: nat, fail: nat, err: bool)
    requires c < |s.cores| == |s.mmus| && j < |s.jobs| && a in s.doms
    requires s.mmus[c].attached == Some(a) ==> s.mmus[c].hw == Some(s.doms[a].gen)
    ensures RunDone(s, c, j, a, fail, err).launches == s.launches +
      if P.GetOk(s.pm, fail) && !err && !s.cores[c].resetPending then [Launch(c, j, Some(s.doms[a].gen))] else []
  {
  }
}
