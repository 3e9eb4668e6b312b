/**
 What a run makes of its calls: thread t is the t-th call started, and its buffer or job, its
 domain and its core are the ones that call asked for.
 */
module Calls {
  import opened Options
  import opened Machine
  import opened Invariants
  import opened Runs
  import opened Pool
  import Frames
  import Jobs
  import Launching
  import PoolRuns
  import R = Refs
  import A = AddressSpace

  // The calls of a run, in order.
  function Starts(steps: seq<Step>): seq<Step> {
    if steps == [] then []
    else (if IsStart(steps[0]) then [steps[0]] else []) + Starts(steps[1..])
  }

  predicate IsStart(st: Step) {
    st.StartMemCreate? || st.StartSubmit?
  }

  // A size rounded up to pages.
  predicate Rounded(got: nat, asked: nat) {
    got % 4096 == 0 && asked <= got < asked + 4096
  }

  predicate SizeOk(bo: Bo, asked: nat) {
    (Rounded(bo.size, asked) || bo.size == asked) && (bo.st.Mapped? ==> Rounded(bo.size, asked))
  }

  // Thread t is doing what the call asks for: ids outside 0..15 mean 0.
  ghost predicate CallOk(call: Step, t: nat, th: Thread, bos: seq<Bo>, jobs: seq<Job>) {
    match call
    case StartMemCreate(f, id, size) =>
      && !th.submit && th.file == f && th.idx == (if 0 <= id < 16 then id else 0)
      && th.bo < |bos| && bos[th.bo].maker == t && bos[th.bo].file == f && bos[th.bo].idx == th.idx
      && SizeOk(bos[th.bo], size)
    case StartSubmit(f, id, core, bo, tasks, number) =>
      && th.submit && th.file == f && th.idx == (if 0 <= id < 16 then id else 0)
      && th.core == core && th.bo == bo && th.tasks == tasks && th.number == number
      && (th.job.Some? ==> th.job.value < |jobs| && JobFor(jobs[th.job.value], th, t))
    case _ => false
  }

  predicate JobFor(job: Job, th: Thread, t: nat) {
    && job.file == th.file && job.idx == th.idx && job.core == th.core && job.tasks == th.tasks && job.submitter == t
  }

  ghost predicate CallsOk(calls: seq<Step>, s: State) {
    && |calls| == |s.threads|
    && (forall t | 0 <= t < |calls| :: CallOk(calls[t], t, s.threads[t], s.bos, s.jobs))
    && (forall k | 0 <= k < |s.launches| :: LaunchOnCore(s.launches[k], s.jobs))
    && (forall k | 0 <= k < |s.grants| :: GrantFor(s.grants[k], s.threads))
    && GrantsApart(s.grants)
  }

  predicate LaunchOnCore(e: Launch, jobs: seq<Job>) {
    e.job < |jobs| && e.core == jobs[e.job].core
  }

  predicate GrantFor(g: Grant, threads: seq<Thread>) {
    g.thread < |threads| && g.file == threads[g.thread].file && g.idx == threads[g.thread].idx
  }

  // One file's slots are never answered with the same domain.
  ghost predicate GrantsApart(grants: seq<Grant>) {
    forall k, m | 0 <= k < |grants| && 0 <= m < |grants| ::
      grants[k].file == grants[m].file && grants[k].gen == grants[m].gen ==> grants[k].idx == grants[m].idx
  }

  // ---- what no step changes ----

  predicate SameCall(a: Thread, b: Thread) {
    && b.file == a.file && b.idx == a.idx && b.submit == a.submit && b.bo == a.bo && b.core == a.core
    && b.tasks == a.tasks && b.number == a.number && (a.job.Some? ==> b.job == a.job)
  }

  predicate SameJob(a: Job, b: Job) {
    && b.file == a.file && b.idx == a.idx && b.core == a.core && b.tasks == a.tasks && b.submitter == a.submitter
  }

  // A buffer's size only changes when it is mapped, to its rounded value.
  predicate SameBo(a: Bo, b: Bo) {
    && b.file == a.file && b.idx == a.idx && b.maker == a.maker
    && ((b.size == a.size && (b.st.Mapped? ==> a.st.Mapped?)) || b.size == A.Pages(a.size) * A.PAGE)
  }

  ghost predicate Stable(s: State, s': State) {
    && |s.threads| <= |s'.threads| && |s.jobs| <= |s'.jobs| && |s.bos| <= |s'.bos|
    && (forall t | 0 <= t < |s.threads| :: SameCall(s.threads[t], s'.threads[t]))
    && (forall t | 0 <= t < |s.threads| && s.threads[t].job.None? && s'.threads[t].job.Some? ::
          s'.threads[t].job.value < |s'.jobs| && JobFor(s'.jobs[s'.threads[t].job.value], s.threads[t], t))
    && (forall j | 0 <= j < |s.jobs| :: SameJob(s.jobs[j], s'.jobs[j]))
    && (forall b | 0 <= b < |s.bos| :: SameBo(s.bos[b], s'.bos[b]))
  }

  lemma StillRounded(a: Bo, b: Bo, asked: nat)
    requires SameBo(a, b) && SizeOk(a, asked)
    ensures SizeOk(b, asked)
  {
  }

  lemma KeepsCall(call: Step, t: nat, s: State, s': State)
    requires Stable(s, s') && t < |s.threads| && CallOk(call, t, s.threads[t], s.bos, s.jobs)
    ensures CallOk(call, t, s'.threads[t], s'.bos, s'.jobs)
  {
    hide Rounded;
    var a, b := s.threads[t], s'.threads[t];
    assert SameCall(a, b);
    if call.StartMemCreate? {
      assert SameBo(s.bos[a.bo], s'.bos[a.bo]);
      StillRounded(s.bos[a.bo], s'.bos[a.bo], call.size);
    } else if a.job.Some? {
      assert SameJob(s.jobs[a.job.value], s'.jobs[a.job.value]);
    }
  }

  // ---- ioctl steps ----

  // Only thread t, its buffer and its job change.
  ghost predicate StableAt(s: State, s': State, t: nat) {
    && t < |s.threads| && t < |s'.threads| && |s.jobs| <= |s'.jobs| && |s.bos| <= |s'.bos|
    && SameCall(s.threads[t], s'.threads[t])
    && (s.threads[t].job.None? && s'.threads[t].job.Some? ==>
          s'.threads[t].job.value < |s'.jobs| && JobFor(s'.jobs[s'.threads[t].job.value], s.threads[t], t))
    && (forall j | 0 <= j < |s.jobs| :: SameJob(s.jobs[j], s'.jobs[j]))
    && (forall b | 0 <= b < |s.bos| :: SameBo(s.bos[b], s'.bos[b]))
  }

  lemma GetStable(s: State, t: nat, ok: bool, arg: nat)
    requires WellTyped(s) && t < |s.threads|
    requires var pc := s.threads[t].pc; pc.Lookup? || pc.Create? || pc.Install? || pc.Discard?
    ensures StableAt(s, AdvanceThread(s, t, ok, arg), t)
  {
    hide Granted, DropDom, Frames.Quiet;
    assert ThreadTyped(s, s.threads[t]);
    Frames.DropDomQuiet(s, Cand(t));
    if s.threads[t].pc.Lookup? && MySlot(s, t) in s.domRefs.ptr {
      Frames.GrantedQuiet(s, t, s.domRefs.ptr[MySlot(s, t)], AfterGet(s.threads[t]));
    }
    if s.threads[t].pc.Install? {
      if MySlot(s, t) in s.domRefs.ptr {
        Frames.GrantedQuiet(s, t, s.domRefs.ptr[MySlot(s, t)], Discard);
      } else if Cand(t) in s.domRefs.ptr {
        Frames.GrantedQuiet(s.(domRefs := R.Move(s.domRefs, Cand(t), MySlot(s, t))), t, s.domRefs.ptr[Cand(t)],
                            AfterGet(s.threads[t]));
      }
    }
  }

  lemma MakeStable(s: State, t: nat, ok: bool, arg: nat)
    requires WellTyped(s) && t < |s.threads|
    requires var pc := s.threads[t].pc;
      pc.Pages? || pc.Insert? || pc.MapIova? || pc.MakeHandle? || pc.Finish? || pc.Done?
    ensures StableAt(s, AdvanceThread(s, t, ok, arg), t)
  {
    assert ThreadTyped(s, s.threads[t]);
    hide WellTyped;
  }

  lemma UndoStable(s: State, t: nat, ok: bool, arg: nat)
    requires WellTyped(s) && t < |s.threads|
    requires var pc := s.threads[t].pc; pc.UndoMap? || pc.UndoInsert? || pc.UndoDomain? || pc.UndoAlloc?
    ensures StableAt(s, AdvanceThread(s, t, ok, arg), t)
  {
    assert ThreadTyped(s, s.threads[t]);
    hide WellTyped, DropDom;
    Frames.DropDomQuiet(s, BoDom(s.threads[t].bo));
  }

  lemma SetupStable(s: State, t: nat, ok: bool, arg: nat)
    requires WellTyped(s) && t < |s.threads| && (s.threads[t].pc.Alloc? ==> s.threads[t].job.None?)
    requires var pc := s.threads[t].pc; pc.Vmap? || pc.Alloc? || pc.InitJob? || pc.Push? || pc.Wait?
    ensures StableAt(s, AdvanceThread(s, t, ok, arg), t)
  {
    assert ThreadTyped(s, s.threads[t]);
    hide WellTyped;
  }

  lemma EndStable(s: State, t: nat, ok: bool, arg: nat)
    requires WellTyped(s) && t < |s.threads|
    requires var pc := s.threads[t].pc; pc.Cleanup? || pc.PutJob? || pc.Vunmap? || pc.PutTask? || pc.Done?
    ensures StableAt(s, AdvanceThread(s, t, ok, arg), t)
  {
    assert ThreadTyped(s, s.threads[t]);
    hide WellTyped, DropJob;
    Frames.DropJobQuiet(s, Submitter(t));
  }

  lemma AllocHasNoJob(s: State, t: nat)
    requires Inv(s) && t < |s.threads| && s.threads[t].submit && s.threads[t].pc.Alloc?
    ensures s.threads[t].job.None?
  {
    hide R.Balanced, DomHolders, DomLinks, Gens, Spaces, OnlyOpen, BoRefs, CoresOk, Attached, Flights, PowerOk, History,
      GrantsOk, WellTyped;
    assert SubmitOk(t, s.threads[t], s.jobs, s.jobRefs.ptr, s.domRefs.ptr);
  }

  lemma AdvanceStable(s: State, t: nat, ok: bool, arg: nat)
    requires Inv(s) && WellTyped(s) && t < |s.threads|
    ensures Stable(s, AdvanceThread(s, t, ok, arg))
  {
    hide Inv, WellTyped, AdvanceThread, SameCall, SameJob, SameBo, JobFor;
    var pc := s.threads[t].pc;
    ThreadKind(s, t);
    Frames.AdvanceQuiet(s, t, ok, arg);
    if pc.Lookup? || pc.Create? || pc.Install? || pc.Discard? {
      GetStable(s, t, ok, arg);
    } else if !s.threads[t].submit {
      if pc.UndoMap? || pc.UndoInsert? || pc.UndoDomain? || pc.UndoAlloc? {
        UndoStable(s, t, ok, arg);
      } else {
        MakeStable(s, t, ok, arg);
      }
    } else if pc.Vmap? || pc.Alloc? || pc.InitJob? || pc.Push? || pc.Wait? {
      if pc.Alloc? {
        AllocHasNoJob(s, t);
      }
      SetupStable(s, t, ok, arg);
    } else {
      EndStable(s, t, ok, arg);
    }
    OthersStable(s, AdvanceThread(s, t, ok, arg), t);
  }

  lemma OthersStable(s: State, s': State, t: nat)
    requires StableAt(s, s', t) && Frames.OnlyThread(s, s', t)
    ensures Stable(s, s')
  {
  }

  // ---- the other steps ----

  lemma SameStable(s: State, s': State)
    requires s'.threads == s.threads && s'.bos == s.bos && |s.jobs| == |s'.jobs|
    requires forall j | 0 <= j < |s.jobs| :: SameJob(s.jobs[j], s'.jobs[j])
    ensures Stable(s, s')
  {
  }

  lemma BoStable(s: State, b: nat, op: BoOp)
    requires BoEnabled(s, b, op)
    ensures Stable(s, BoApply(s, b, op))
  {
    hide DropDom;
    Frames.DropDomQuiet(s, BoDom(b));
  }

  lemma JobStable(s: State, j: nat, op: JobOp)
    requires WellTyped(s) && j < |s.jobs| && JobEnabled(s, j, op)
    ensures Stable(s, JobApply(s, j, op))
  {
    hide WellTyped, DropJob, Stable;
    Frames.DropJobQuiet(CleanBase(s, j), Sched(j));
    SameStable(s, JobApply(s, j, op));
  }

  lemma CoreStable(s: State, c: nat, op: CoreOp)
    requires WellTyped(s) && c < |s.cores| && CoreEnabled(s, c, op)
    ensures Stable(s, CoreApply(s, c, op))
  {
    assert |s.cores| == |s.mmus| && CoreTyped(|s.jobs|, s.cores[c]);
    hide WellTyped, Stable;
    SameStable(s, CoreApply(s, c, op));
  }

  lemma StepStable(s: State, st: Step)
    requires Inv(s) && WellTyped(s) && Enabled(s, st)
    ensures Stable(s, Apply(s, st))
  {
    hide Inv, WellTyped, Stable, AdvanceThread, CanAdvance, BoApply, BoEnabled, JobApply, JobEnabled, CoreApply,
      CoreEnabled, FileApply, FileEnabled;
    match st {
      case Advance(t, ok, arg) => AdvanceStable(s, t, ok, arg);
      case OnFile(f, op) =>
        Launching.FileQuiet(s, f, op);
        SameStable(s, Apply(s, st));
      case OnBo(b, op) => BoStable(s, b, op);
      case OnJob(j, op) => JobStable(s, j, op);
      case OnCore(c, op) => CoreStable(s, c, op);
      case _ => StartStable(s, st);
    }
  }

  lemma StartStable(s: State, st: Step)
    requires WellTyped(s) && Enabled(s, st)
    requires st.OpenFile? || st.StartMemCreate? || st.StartSubmit? || st.Expire?
    ensures Stable(s, Apply(s, st))
  {
    hide WellTyped;
  }

  // A call adds the thread that does it; nothing else adds one.
  lemma NewThread(s: State, st: Step)
    requires Inv(s) && WellTyped(s) && Enabled(s, st)
    ensures var s' := Apply(s, st);
      && |s'.threads| == |s.threads| + (if IsStart(st) then 1 else 0)
      && (IsStart(st) ==> CallOk(st, |s.threads|, s'.threads[|s.threads|], s'.bos, s'.jobs))
  {
    hide Inv, WellTyped, AdvanceThread, CanAdvance, BoApply, BoEnabled, JobApply, JobEnabled, CoreApply, CoreEnabled,
      FileApply, FileEnabled;
    match st {
      case Advance(t, ok, arg) => Frames.AdvanceQuiet(s, t, ok, arg);
      case OnFile(f, op) => Launching.FileQuiet(s, f, op);
      case OnBo(b, op) => Frames.BoQuiet(s, b, op);
      case OnJob(j, op) => PoolRuns.JobSame(s, j, op);
      case OnCore(c, op) => PoolRuns.CoreSame(s, c, op);
      case _ =>
    }
  }

  // ---- grants ----

  // Distinct pool slots name distinct domains.
  lemma SlotsApart(s: State, f: nat, i: nat, j: nat)
    requires Inv(s) && Slot(f, i) in s.domRefs.ptr && Slot(f, j) in s.domRefs.ptr
    requires s.domRefs.ptr[Slot(f, i)] in s.doms && s.domRefs.ptr[Slot(f, j)] in s.doms
    requires s.doms[s.domRefs.ptr[Slot(f, i)]].gen == s.doms[s.domRefs.ptr[Slot(f, j)]].gen
    ensures i == j
  {
    hide R.Balanced, DomHolders, Spaces, OnlyOpen, BoRefs, JobRefs, CoresOk, Attached, Flights, PowerOk, History,
      GrantsOk, WellTyped;
    var a := s.domRefs.ptr[Slot(f, i)];
    assert LinkOk(Slot(f, i), a, s.domRefs.ptr, s.doms, s.files, s.threads, s.bos, s.jobs);
    assert LinkOk(Slot(f, j), a, s.domRefs.ptr, s.doms, s.files, s.threads, s.bos, s.jobs);
  }

  // While a file is open its grants are what its slots name.
  lemma OpenApart(s: State, k: nat, m: nat)
    requires Inv(s) && k < |s.grants| && m < |s.grants|
    requires s.grants[k].file == s.grants[m].file && s.grants[k].gen == s.grants[m].gen
    requires s.grants[k].file < |s.files| && Pooled(s.files[s.grants[k].file])
    ensures s.grants[k].idx == s.grants[m].idx
  {
    hide R.Balanced, DomHolders, DomLinks, Gens, Spaces, OnlyOpen, BoRefs, JobRefs, CoresOk, Attached, Flights, PowerOk,
      History, WellTyped;
    assert GrantOk(s.grants[k], s.files, s.domRefs.ptr, s.doms) && GrantOk(s.grants[m], s.files, s.domRefs.ptr, s.doms);
    SlotsApart(s, s.grants[k].file, s.grants[k].idx, s.grants[m].idx);
  }

  // A step grants nothing, or one answer to the thread it steps, whose file is open.
  lemma NewGrant(s: State, st: Step)
    requires Inv(s) && WellTyped(s) && Enabled(s, st)
    ensures var s' := Apply(s, st);
      || s'.grants == s.grants
      || (|s'.grants| == |s.grants| + 1 && s'.grants[..|s.grants|] == s.grants
          && GrantFor(s'.grants[|s.grants|], s.threads)
          && s'.files == s.files && InFile(s.files, s'.grants[|s.grants|].file))
  {
    hide Inv, WellTyped, Enabled, EventOf, Slots;
    StepLinear(s, st);
    var e := EventOf(s, st);
    if e.Some? && e.value.Get? {
      PoolRuns.EventTimely(s, st);
      GetEvent(s, st);
      hide Apply;
      assert Answer(Slots(s), e.value)[0].thread == e.value.thread;
    }
  }

  lemma GetEvent(s: State, st: Step)
    requires Inv(s) && WellTyped(s) && Enabled(s, st) && EventOf(s, st).Some? && EventOf(s, st).value.Get?
    ensures Apply(s, st).files == s.files
  {
    hide Inv, WellTyped, AdvanceThread, CanAdvance, Table;
    Frames.AdvanceQuiet(s, st.t, st.ok, st.arg);
  }

  lemma KeepsGrants(s: State, st: Step, calls: seq<Step>)
    requires Inv(s) && WellTyped(s) && Enabled(s, st) && CallsOk(calls, s)
    ensures var s' := Apply(s, st);
      GrantsApart(s'.grants) && forall k | 0 <= k < |s'.grants| :: GrantFor(s'.grants[k], s'.threads)
  {
    hide Inv, WellTyped, Enabled, Apply, CallOk;
    var s' := Apply(s, st);
    StepStable(s, st);
    StepKeeps(s, st);
    NewGrant(s, st);
    forall k | 0 <= k < |s'.grants| ensures GrantFor(s'.grants[k], s'.threads) {
      if k < |s.grants| {
        assert s'.grants[k] == s.grants[k];
      }
      assert GrantFor(s'.grants[k], s.threads);
      assert SameCall(s.threads[s'.grants[k].thread], s'.threads[s'.grants[k].thread]);
    }
    forall k, m | 0 <= k < |s'.grants| && 0 <= m < |s'.grants|
      && s'.grants[k].file == s'.grants[m].file && s'.grants[k].gen == s'.grants[m].gen
      ensures s'.grants[k].idx == s'.grants[m].idx
    {
      if k < |s.grants| && m < |s.grants| {
        assert s'.grants[k] == s.grants[k] && s'.grants[m] == s.grants[m];
      } else {
        OpenApart(s', k, m);
      }
    }
  }

  // ---- every step, every run ----

  lemma KeepsLaunches(s: State, st: Step)
    requires Inv(s) && WellTyped(s) && Enabled(s, st)
    requires forall k | 0 <= k < |s.launches| :: LaunchOnCore(s.launches[k], s.jobs)
    ensures var s' := Apply(s, st); forall k | 0 <= k < |s'.launches| :: LaunchOnCore(s'.launches[k], s'.jobs)
  {
    hide Inv, WellTyped, Enabled, Apply, Launching.Translates;
    var s' := Apply(s, st);
    StepStable(s, st);
    Launching.LaunchStep(s, st);
    forall k | 0 <= k < |s'.launches| ensures LaunchOnCore(s'.launches[k], s'.jobs) {
      if k < |s.launches| {
        assert s'.launches[k] == s.launches[k] && LaunchOnCore(s.launches[k], s.jobs);
        assert SameJob(s.jobs[s.launches[k].job], s'.jobs[s.launches[k].job]);
      }
    }
  }

  lemma StepCalls(s: State, st: Step, calls: seq<Step>)
    requires Inv(s) && WellTyped(s) && Enabled(s, st) && CallsOk(calls, s)
    ensures CallsOk(calls + Starts([st]), Apply(s, st))
  {
    hide Inv, WellTyped, Enabled, Apply, CallOk, Stable;
    StepStable(s, st);
    NewThread(s, st);
    KeepsLaunches(s, st);
    KeepsGrants(s, st, calls);
    var s' := Apply(s, st);
    assert [st][1..] == [];
    forall t | 0 <= t < |s'.threads| ensures CallOk((calls + Starts([st]))[t], t, s'.threads[t], s'.bos, s'.jobs) {
      if t < |calls| {
        KeepsCall(calls[t], t, s, s');
      }
    }
  }

  lemma {:induction false} RunCalls(s: State, steps: seq<Step>, calls: seq<Step>)
    requires Inv(s) && ValidRun(s, steps) && CallsOk(calls, s)
    ensures CallsOk(calls + Starts(steps), After(s, steps))
    decreases |steps|
  {
    hide Inv, WellTyped, Enabled, Apply, CallsOk;
    if steps == [] {
      assert calls + [] == calls;
    } else {
      StepCalls(s, steps[0], calls);
      StepKeeps(s, steps[0]);
      var more := calls + Starts([steps[0]]);
      RunCalls(Apply(s, steps[0]), steps[1..], more);
      assert Starts(steps) == Starts([steps[0]]) + Starts(steps[1..]) by { assert [steps[0]][1..] == []; }
      assert more + Starts(steps[1..]) == calls + Starts(steps);
    }
  }

  lemma CallsOfRun(s: State, steps: seq<Step>)
    requires Initial(s) && s.policy.AttachOnce? && ValidRun(s, steps)
    ensures CallsOk(Starts(steps), After(s, steps))
  {
    hide Inv, WellTyped, Enabled, Apply;
    InitiallyOk(s);
    RunCalls(s, steps, []);
    assert [] + Starts(steps) == Starts(steps);
  }

  // Step k of a run, if it starts a call, starts the thread numbered by the calls before it.
  lemma {:induction false} ThreadOf(steps: seq<Step>, k: nat)
    requires k < |steps| && IsStart(steps[k])
    ensures var t := |Starts(steps[..k])|; t < |Starts(steps)| && Starts(steps)[t] == steps[k]
  {
    if k > 0 {
      ThreadOf(steps[1..], k - 1);
      assert steps[..k][1..] == steps[1..][..k - 1];
    }
  }

  // In every run: a SUBMIT started for a core gets a job of its own file, domain id and task
  // count on that core, and every launch of that job is on that core.
  lemma SubmitRunsOnItsCore(s: State, steps: seq<Step>, k: nat)
    requires Initial(s) && s.policy.AttachOnce? && ValidRun(s, steps) && k < |steps| && steps[k].StartSubmit?
    ensures var e, t := After(s, steps), |Starts(steps[..k])|;
      && t < |e.threads| && e.threads[t].submit && e.threads[t].number == steps[k].number
      && e.threads[t].bo == steps[k].bo
      && (e.threads[t].job.Some? ==>
            var j := e.threads[t].job.value;
            && j < |e.jobs| && e.jobs[j].file == steps[k].f && e.jobs[j].core == steps[k].core
            && e.jobs[j].idx == (if 0 <= steps[k].id < 16 then steps[k].id else 0)
            && e.jobs[j].tasks == steps[k].tasks && e.jobs[j].submitter == t
            && (forall l | 0 <= l < |e.launches| && e.launches[l].job == j :: e.launches[l].core == steps[k].core))
  {
    hide WellTyped, Enabled, Apply, ValidRun;
    CallsOfRun(s, steps);
    ThreadOf(steps, k);
    var e, t := After(s, steps), |Starts(steps[..k])|;
    assert CallOk(Starts(steps)[t], t, e.threads[t], e.bos, e.jobs);
    forall l | 0 <= l < |e.launches| && e.threads[t].job == Some(e.launches[l].job)
      ensures e.launches[l].core == steps[k].core
    {
      assert LaunchOnCore(e.launches[l], e.jobs);
    }
  }

  // In every run: the buffer of a MEM_CREATE is of its file and domain id, and once mapped has
  // the size asked for, rounded up to pages of 4096.
  lemma CreateMakesItsBuffer(s: State, steps: seq<Step>, k: nat)
    requires Initial(s) && s.policy.AttachOnce? && ValidRun(s, steps) && k < |steps| && steps[k].StartMemCreate?
    ensures var e, t := After(s, steps), |Starts(steps[..k])|;
      && t < |e.threads| && !e.threads[t].submit && e.threads[t].bo < |e.bos|
      && var bo := e.bos[e.threads[t].bo];
         && bo.maker == t && bo.file == steps[k].f
         && bo.idx == (if 0 <= steps[k].id < 16 then steps[k].id else 0)
         && (bo.st.Mapped? ==> bo.size % 4096 == 0 && steps[k].size <= bo.size < steps[k].size + 4096)
  {
    hide WellTyped, Enabled, Apply, ValidRun;
    CallsOfRun(s, steps);
    ThreadOf(steps, k);
    var e, t := After(s, steps), |Starts(steps[..k])|;
    assert CallOk(Starts(steps)[t], t, e.threads[t], e.bos, e.jobs);
  }

  // The domain id a call names.
  function IdOf(call: Step): int {
    if call.StartMemCreate? then call.id else if call.StartSubmit? then call.id else 0
  }

  function FileOf(call: Step): nat {
    if call.StartMemCreate? then call.f else if call.StartSubmit? then call.f else 0
  }

  // In every run, over all answers a file's calls got: the domain is decided by the id the call
  // named.  Two calls got the same domain if and only if they named the same id, where ids below
  // 0 and from 16 on count as 0; and while the file is open, it is the one in the slot of that id.
  lemma DomainOfId(s: State, steps: seq<Step>, k: nat, m: nat)
    requires Initial(s) && s.policy.AttachOnce? && ValidRun(s, steps)
    requires k < |After(s, steps).grants| && m < |After(s, steps).grants|
    requires After(s, steps).grants[k].file == After(s, steps).grants[m].file
    ensures var e, calls := After(s, steps), Starts(steps); var g, h := e.grants[k], e.grants[m];
      && g.thread < |calls| && h.thread < |calls| && FileOf(calls[g.thread]) == g.file
      && var i, j := IdOf(calls[g.thread]), IdOf(calls[h.thread]);
         && (g.gen == h.gen <==> i == j || ((i == 0 || i < 0 || 16 <= i) && (j == 0 || j < 0 || 16 <= j)))
         && (InFile(e.files, g.file) && 0 <= i < 16 ==>
               Slot(g.file, i) in e.domRefs.ptr && e.domRefs.ptr[Slot(g.file, i)] in e.doms
               && e.doms[e.domRefs.ptr[Slot(g.file, i)]].gen == g.gen)
  {
    hide R.Balanced, DomHolders, DomLinks, Gens, Spaces, OnlyOpen, BoRefs, JobRefs, CoresOk, Attached, Flights, PowerOk,
      History, WellTyped, Enabled, Apply, ValidRun;
    CallsOfRun(s, steps);
    InitiallyOk(s);
    RunKeeps(s, steps);
    if After(s, steps).grants[k].idx == After(s, steps).grants[m].idx {
      PoolRuns.OneDomainPerId(s, steps, k, m);
    }
    var e, calls := After(s, steps), Starts(steps);
    var g, h := e.grants[k], e.grants[m];
    assert GrantFor(g, e.threads) && GrantFor(h, e.threads);
    assert CallOk(calls[g.thread], g.thread, e.threads[g.thread], e.bos, e.jobs);
    assert CallOk(calls[h.thread], h.thread, e.threads[h.thread], e.bos, e.jobs);
    assert GrantOk(g, e.files, e.domRefs.ptr, e.doms);
  }

  // ---- the calls a run can make ----

  // Nothing but the file being open holds back a call: any id, any size that rounds up to less
  // than 2^31, any core, any task count, any live published buffer; and every later request of a
  // call to the kernel can be refused, wherever it has got to.
  lemma AnyCallStarts(s: State, f: nat)
    requires WellTyped(s) && f < |s.files| && s.files[f].Open?
    ensures Enabled(s, OpenFile)
    ensures forall id, size: nat | size <= 0x7FFF_F000 :: Enabled(s, StartMemCreate(f, id, size))
    ensures forall id, core: nat, bo: nat, tasks: nat, number: nat ::
      core < |s.cores| && 0 < number && bo < |s.bos| && bo in s.boRefs.kref && s.bos[bo].published ==>
        Enabled(s, StartSubmit(f, id, core, bo, tasks, number))
    ensures forall t, arg: nat | 0 <= t < |s.threads| && !s.threads[t].pc.Wait? && !s.threads[t].pc.Done? ::
      Enabled(s, Advance(t, false, arg))
  {
    hide WellTyped;
    forall size: nat | size <= 0x7FFF_F000 ensures A.Pages(size) * A.PAGE < 0x8000_0000 {
    }
  }

  // An interrupt can come whenever the core's job_lock is free, a timeout whenever the scheduler
  // still holds an active job that is not abandoned and no handler runs, and a wait can expire as
  // long as its job is not finished.
  lemma AnyEventComes(s: State, c: nat)
    requires WellTyped(s) && c < |s.cores|
    ensures s.cores[c].lock.Unlocked? ==> Enabled(s, OnCore(c, Interrupt))
    ensures forall j | 0 <= j < |s.jobs| && s.jobs[j].core == c && s.jobs[j].st.Active? ::
      s.cores[c].reset.Quiet? && Sched(j) in s.jobRefs.ptr && !s.jobs[j].abandoned ==>
        Enabled(s, OnCore(c, TimedOut(j)))
    ensures forall t | 0 <= t < |s.threads| && s.threads[t].pc.Wait? && s.threads[t].job.Some? ::
      s.threads[t].job.value < |s.jobs| && (!s.jobs[s.threads[t].job.value].st.Finished? ==> Enabled(s, Expire(t)))
  {
    forall t | 0 <= t < |s.threads| && s.threads[t].job.Some? ensures s.threads[t].job.value < |s.jobs| {
      assert ThreadTyped(s, s.threads[t]);
    }
    hide WellTyped;
  }
}
