/**
 How often a job runs, when its fence is signalled, and what SUBMIT may conclude.
 */
module Execution {
  import opened Options
  import opened Machine
  import opened Invariants
  import opened Runs
  import opened Jobs
  import Frames
  import Launching
  import RunProof
  import R = Refs

  // ---- at most once ----

  // In any run, resets and requeues included, a job's launches are its task counter and never
  // exceed its task count.
  lemma AtMostOnce(s: State, steps: seq<Step>, j: nat)
    requires Initial(s) && s.policy.AttachOnce? && ValidRun(s, steps) && j < |After(s, steps).jobs|
    ensures var e := After(s, steps); Launches(e.launches, j) == e.jobs[j].next <= e.jobs[j].tasks
  {
    hide IoInv, Attached, Flights, PowerOk, WellTyped, Owned, ValidRun;
    Reached(s, steps);
  }

  ghost predicate IrqOutcome(s: State, e: State, c: nat) {
    && c < |s.cores| && c < |e.cores|
    && var fl := s.cores[c].flight; var before, after := s.cores[c].signalled, e.cores[c].signalled;
       && (after != before <==>
             fl.Some? && fl.value < |s.jobs| && Launches(s.launches, fl.value) == s.jobs[fl.value].tasks)
       && (after != before ==>
             && after == before + {s.jobs[fl.value].fence}
             && s.jobs[fl.value].fence == s.cores[c].seqno && s.cores[c].seqno !in before)
       && (after == before && fl.Some? ==> |e.launches| == |s.launches| + if s.cores[c].resetPending then 0 else 1)
  }

  // An interrupt signals a fence exactly when the job in flight has been launched for each of
  // its tasks; the fence is that job's, the newest of the core, and was not signalled before.
  // Otherwise a job in flight is launched once more, unless a reset is under way.
  lemma IrqSignals(s: State, c: nat)
    requires Reachable(s) && c < |s.cores| && CoreEnabled(s, c, Interrupt)
    ensures IrqOutcome(s, CoreApply(s, c, Interrupt), c)
  {
    hide IoInv, Attached, Flights, PowerOk, WellTyped, Irq;
    ReachableInv(s);
    Launching.InvTyped(s);
    assert CoreOk(c, s.cores[c], s.jobs);
    if s.cores[c].flight.None? {
      IrqIdle(s, c);
    } else {
      var j := s.cores[c].flight.value;
      RunProof.LiveJob(s, j);
      assert Launches(s.launches, j) == s.jobs[j].next;
      if s.jobs[j].next < s.jobs[j].tasks {
        IrqRelaunches(s, c);
      } else {
        IrqCompletes(s, c);
      }
    }
  }

  lemma IrqIdle(s: State, c: nat)
    requires WellTyped(s) && c < |s.cores| && s.cores[c].flight.None?
    ensures Irq(s, c) == s
  {
  }

  lemma IrqRelaunches(s: State, c: nat)
    requires WellTyped(s) && c < |s.cores| && s.cores[c].flight.Some? && JobLive(s, s.cores[c].flight.value)
    requires s.jobs[s.cores[c].flight.value].next < s.jobs[s.cores[c].flight.value].tasks
    ensures var e := Irq(s, c);
      && e.cores == s.cores && |e.launches| == |s.launches| + if s.cores[c].resetPending then 0 else 1
  {
    assert |s.cores| == |s.mmus| && CoreTyped(|s.jobs|, s.cores[c]);
    hide WellTyped;
  }

  lemma IrqCompletes(s: State, c: nat)
    requires WellTyped(s) && c < |s.cores| && s.cores[c].flight.Some? && JobLive(s, s.cores[c].flight.value)
    requires s.jobs[s.cores[c].flight.value].next >= s.jobs[s.cores[c].flight.value].tasks
    ensures var e := Irq(s, c);
      && |e.cores| == |s.cores|
      && e.cores[c].signalled == s.cores[c].signalled + {s.jobs[s.cores[c].flight.value].fence}
  {
    assert |s.cores| == |s.mmus| && CoreTyped(|s.jobs|, s.cores[c]);
    hide WellTyped;
  }

  // Done fences carry strictly increasing numbers: a new one is above every fence of every
  // job the core has run and above everything it has signalled.
  lemma FencesIncrease(s: State, steps: seq<Step>, j: nat, k: nat)
    requires Initial(s) && s.policy.AttachOnce? && ValidRun(s, steps)
    requires var e := After(s, steps);
      j < |e.jobs| && k < |e.jobs| && JobEnabled(e, j, Begin) && e.jobs[k].core == e.jobs[j].core
    ensures var e := After(s, steps); var q := JobApply(e, j, Begin).jobs[j].fence;
      e.jobs[k].fence < q && (forall x <- e.cores[e.jobs[j].core].signalled :: x < q)
  {
    hide IoInv, Attached, Flights, PowerOk, History, ValidRun;
    Reached(s, steps);
    var e := After(s, steps);
    assert CoreOk(e.jobs[j].core, e.cores[e.jobs[j].core], e.jobs);
  }

  // ---- bounded work ----

  // The most launches and timeouts a set of jobs can cost: the driver abandons a job at its
  // fourth timeout.
  function Budget(jobs: seq<Job>): nat {
    if jobs == [] then 0 else Budget(jobs[1..]) + jobs[0].tasks + 4
  }

  function Timeouts(jobs: seq<Job>): nat {
    if jobs == [] then 0 else Timeouts(jobs[1..]) + jobs[0].timeouts
  }

  function Nexts(jobs: seq<Job>): nat {
    if jobs == [] then 0 else Nexts(jobs[1..]) + jobs[0].next
  }

  // Launches of jobs lo, lo + 1, ... , hi - 1.
  function LaunchesOf(l: seq<Launch>, lo: nat, hi: nat): nat
    requires lo <= hi
    decreases hi - lo
  {
    if lo == hi then 0 else Launches(l, lo) + LaunchesOf(l, lo + 1, hi)
  }

  lemma {:induction false} LaunchesPlusOne(l: seq<Launch>, lo: nat, hi: nat)
    requires lo <= hi && l != []
    ensures var n := l[|l| - 1].job;
      LaunchesOf(l, lo, hi) == LaunchesOf(l[..|l| - 1], lo, hi) + if lo <= n < hi then 1 else 0
    decreases hi - lo
  {
    if lo < hi {
      LaunchesPlusOne(l, lo + 1, hi);
    }
  }

  lemma {:induction false} EveryLaunchCounted(l: seq<Launch>, n: nat)
    requires forall k | 0 <= k < |l| :: l[k].job < n
    ensures LaunchesOf(l, 0, n) == |l|
  {
    if l == [] {
      NoLaunches(0, n);
    } else {
      EveryLaunchCounted(l[..|l| - 1], n);
      LaunchesPlusOne(l, 0, n);
    }
  }

  lemma {:induction false} NoLaunches(lo: nat, hi: nat)
    requires lo <= hi
    ensures LaunchesOf([], lo, hi) == 0
    decreases hi - lo
  {
    if lo < hi {
      NoLaunches(lo + 1, hi);
    }
  }

  lemma {:induction false} LaunchesAreNexts(l: seq<Launch>, jobs: seq<Job>, k: nat)
    requires History(l, jobs) && k <= |jobs|
    ensures LaunchesOf(l, k, |jobs|) == Nexts(jobs[k..])
    decreases |jobs| - k
  {
    if k < |jobs| {
      LaunchesAreNexts(l, jobs, k + 1);
      assert jobs[k..][1..] == jobs[k + 1..];
    }
  }

  // rocket_job_timedout gives a job up at its fourth timeout and not before.
  lemma AbandonedAtFour(s: State, j: nat)
    requires Reachable(s) && j < |s.jobs|
    ensures s.jobs[j].timeouts <= 4 && (s.jobs[j].abandoned <==> s.jobs[j].timeouts == 4)
  {
    hide Inv, Reachable;
    ReachableOwned(s);
    assert TimeoutsOk(j, s.jobs[j], s.cores);
  }

  // The cores whose timeout handler has been entered and has not counted yet.
  ghost function Handling(cores: seq<Core>): set<nat> {
    set c: nat | c < |cores| && !cores[c].reset.Quiet?
  }

  // The jobs those handlers are for.
  ghost function Handled(cores: seq<Core>): set<nat> {
    set c | c in Handling(cores) :: cores[c].reset.job
  }

  ghost function From(js: set<nat>, k: nat): set<nat> {
    set j | j in js && k <= j
  }

  // Handlers of different cores are for different jobs.
  lemma {:induction false} Distinct(cores: seq<Core>, jobs: seq<Job>, cs: set<nat>, js: set<nat>)
    requires forall c :: c in cs ==>
      c < |cores| && !cores[c].reset.Quiet? && cores[c].reset.job in js
      && cores[c].reset.job < |jobs| && jobs[cores[c].reset.job].core == c
    ensures |cs| <= |js|
  {
    if cs != {} {
      var c :| c in cs;
      Distinct(cores, jobs, cs - {c}, js - {cores[c].reset.job});
    }
  }

  lemma {:induction false} WithinBudget(jobs: seq<Job>, js: set<nat>, k: nat)
    requires k <= |jobs|
    requires forall j :: j in js ==> j < |jobs|
    requires forall j | 0 <= j < |jobs| ::
      jobs[j].next <= jobs[j].tasks && jobs[j].timeouts + (if j in js then 1 else 0) <= PATIENCE + 1
    ensures Nexts(jobs[k..]) + Timeouts(jobs[k..]) + |From(js, k)| <= Budget(jobs[k..])
    decreases |jobs| - k
  {
    if k == |jobs| {
      assert From(js, k) == {};
    } else {
      WithinBudget(jobs, js, k + 1);
      assert jobs[k..][1..] == jobs[k + 1..];
      assert From(js, k) == From(js, k + 1) + if k in js then {k} else {};
    }
  }

  // However a run interleaves, all its launches and all its timeouts, those still being handled
  // included, stay within tasks + 4 per submitted job.
  lemma BoundedWork(s: State, steps: seq<Step>)
    requires Initial(s) && s.policy.AttachOnce? && ValidRun(s, steps)
    ensures var e := After(s, steps); |e.launches| + Timeouts(e.jobs) + |Handling(e.cores)| <= Budget(e.jobs)
  {
    hide IoInv, Attached, Flights, PowerOk, WellTyped, ValidRun;
    Reached(s, steps);
    var e := After(s, steps);
    EveryLaunchCounted(e.launches, |e.jobs|);
    LaunchesAreNexts(e.launches, e.jobs, 0);
    assert e.jobs[0..] == e.jobs;
    hide Launches, Inv, History;
    var js := Handled(e.cores);
    HandledOnce(e);
    forall j | 0 <= j < |e.jobs|
      ensures e.jobs[j].next <= e.jobs[j].tasks && e.jobs[j].timeouts + (if j in js then 1 else 0) <= PATIENCE + 1
    {
      assert TimeoutsOk(j, e.jobs[j], e.cores);
    }
    WithinBudget(e.jobs, js, 0);
    assert From(js, 0) == js;
  }

  lemma HandledOnce(s: State)
    requires CoresOk(s.cores, s.jobs)
    ensures |Handling(s.cores)| <= |Handled(s.cores)|
    ensures forall j :: j in Handled(s.cores) ==>
      j < |s.jobs| && s.jobs[j].core < |s.cores| && !s.cores[s.jobs[j].core].reset.Quiet?
      && s.cores[s.jobs[j].core].reset.job == j
  {
    forall c | c in Handling(s.cores)
      ensures s.cores[c].reset.job < |s.jobs| && s.jobs[s.cores[c].reset.job].core == c
    {
      assert CoreOk(c, s.cores[c], s.jobs);
    }
    Distinct(s.cores, s.jobs, Handling(s.cores), Handled(s.cores));
  }

  // ---- what SUBMIT reports, and the task array it lends out ----

  // The submitter has given up: no success reported, task array unmapped.
  predicate GaveUp(th: Thread) {
    th.submit && !th.success && (th.pc.PutTask? || th.pc.Done?)
  }

  // Success means the job is finished; failure means nothing was counted as done.
  lemma SubmitReports(s: State, t: nat)
    requires Inv(s) && t < |s.threads| && s.threads[t].submit
    ensures var th := s.threads[t];
      && th.counter == (if th.success then th.number else 0)
      && (th.success && th.pc.PutJob? ==> th.job.Some? && th.job.value < |s.jobs| && s.jobs[th.job.value].st.Finished?)
  {
    hide R.Balanced, DomHolders, DomLinks, Gens, Spaces, OnlyOpen, BoRefs, CoresOk, Attached, Flights, PowerOk, History,
      GrantsOk, WellTyped;
    assert SubmitOk(t, s.threads[t], s.jobs, s.jobRefs.ptr, s.domRefs.ptr);
  }

  // When the wait expires the job is still the scheduler's: queued or active, holding its own
  // reference and its domain.
  lemma ExpiryLeavesJob(s: State, t: nat)
    requires Reachable(s) && Enabled(s, Expire(t))
    ensures var e := Apply(s, Expire(t)); var j := s.threads[t].job.value;
      && e.threads[t].counter == 0 && e.jobs == s.jobs && e.jobRefs == s.jobRefs && e.domRefs == s.domRefs
      && (e.jobs[j].st.Queued? || e.jobs[j].st.Active?)
      && Sched(j) in e.jobRefs.ptr && e.jobRefs.ptr[Sched(j)] == j && JobDom(j) in e.domRefs.ptr
  {
    hide R.Balanced, DomLinks, Gens, Spaces, OnlyOpen, BoRefs, CoresOk, Attached, Flights, PowerOk, History, GrantsOk;
    ReachableInv(s);
    assert ThreadTyped(s, s.threads[t]);
    SubmitIs(s, t);
    var j := s.threads[t].job.value;
    assert SubmitOk(t, s.threads[t], s.jobs, s.jobRefs.ptr, s.domRefs.ptr);
    assert JobOk(j, s.jobs[j], s.threads, s.jobRefs);
    JobInKref(s, j);
  }

  lemma SubmitIs(s: State, t: nat)
    requires Inv(s) && t < |s.threads| && s.threads[t].pc.Wait?
    ensures s.threads[t].submit
  {
    hide IoInv, CoresOk, Attached, Flights, PowerOk, History, WellTyped;
    ThreadKind(s, t);
  }

  lemma JobInKref(s: State, j: nat)
    requires Inv(s) && Sched(j) in s.jobRefs.ptr
    ensures s.jobRefs.ptr[Sched(j)] in s.jobRefs.kref
  {
    hide DomHolders, DomLinks, Gens, Spaces, OnlyOpen, BoRefs, JobRefs, CoresOk, Attached, Flights, PowerOk, History,
      GrantsOk, WellTyped;
    R.HolderLive(s.jobRefs, Sched(j));
  }

  // A launch finds the task array unmapped exactly when the submitter has given up on the job.
  lemma MappedUnlessGivenUp(s: State, j: nat)
    requires Inv(s) && Owned(s) && j < |s.jobs| && (s.jobs[j].st.Queued? || s.jobs[j].st.Active?)
    ensures s.jobs[j].submitter in s.maps <==> !GaveUp(s.threads[s.jobs[j].submitter])
    ensures s.jobs[j].submitter < |s.threads| && s.threads[s.jobs[j].submitter].job == Some(j)
  {
    hide R.Balanced, DomHolders, DomLinks, Gens, Spaces, OnlyOpen, BoRefs, CoresOk, Attached, Flights, PowerOk, History,
      GrantsOk, WellTyped;
    assert OwnedJob(j, s.jobs[j], s.threads);
    var t := s.jobs[j].submitter;
    assert SubmitOk(t, s.threads[t], s.jobs, s.jobRefs.ptr, s.domRefs.ptr);
  }

  // Reads of task arrays so far that found them unmapped belong to submits that gave up.
  ghost predicate ReadsOk(s: State) {
    forall j: nat :: TaskArray(j) in s.stale ==>
      j < |s.jobs| && s.jobs[j].submitter < |s.threads| && GaveUp(s.threads[s.jobs[j].submitter])
  }

  // A launching step reads unmapped memory exactly if the launched job's submit has given up.
  lemma LaunchReads(s: State, c: nat, op: CoreOp)
    requires Inv(s) && Owned(s) && c < |s.cores| && CoreEnabled(s, c, op) && (op.Section? || op.Interrupt?)
    ensures ReadsWell(s, CoreApply(s, c, op))
  {
    hide IoInv, Attached, Flights, PowerOk, History, Owned, WellTyped;
    Launching.InvTyped(s);
    assert CoreOk(c, s.cores[c], s.jobs);
    var core := s.cores[c];
    var j := if op.Section? then core.run.job else if core.flight.Some? then core.flight.value else 0;
    if op.Section? || core.flight.Some? {
      RunProof.LiveJob(s, j);
      MappedUnlessGivenUp(s, j);
      LaunchedBy(s, c, op, j);
    }
  }

  // From s to e nothing was launched, or one job was, reading a mapped array unless its
  // submit has given up.
  ghost predicate ReadsWell(s: State, e: State) {
    || (e.launches == s.launches && e.stale == s.stale)
    || (exists j :: 0 <= j < |s.jobs| && s.jobs[j].st.Active? && s.jobs[j].submitter < |s.threads|
          && Launches(e.launches, j) == Launches(s.launches, j) + 1
          && e.stale == s.stale + if GaveUp(s.threads[s.jobs[j].submitter]) then {TaskArray(j)} else {})
  }

  lemma LaunchedBy(s: State, c: nat, op: CoreOp, j: nat)
    requires WellTyped(s) && c < |s.cores| && CoreEnabled(s, c, op) && j < |s.jobs|
    requires (op.Section? && j == s.cores[c].run.job) || (op.Interrupt? && s.cores[c].flight == Some(j))
    ensures var e := CoreApply(s, c, op);
      || (e.launches == s.launches && e.stale == s.stale)
      || (e.launches != [] && e.launches[..|e.launches| - 1] == s.launches && e.launches[|e.launches| - 1].job == j
          && e.stale == s.stale + if s.jobs[j].submitter in s.maps then {} else {TaskArray(j)})
  {
    Launching.Sizes(s);
    hide WellTyped;
  }

  lemma ReadsKeep(s: State, st: Step)
    requires Inv(s) && Owned(s) && ReadsOk(s) && Enabled(s, st)
    ensures ReadsOk(Apply(s, st))
  {
    hide Inv, WellTyped, Owned, CoreApply, CoreEnabled, JobApply, JobEnabled, BoApply, BoEnabled, FileApply,
      FileEnabled, AdvanceThread, CanAdvance;
    Launching.InvTyped(s);
    match st {
      case Advance(t, ok, arg) =>
        Frames.AdvanceQuiet(s, t, ok, arg);
        AdvanceReads(s, t, ok, arg);
      case OnFile(f, op) => Launching.FileQuiet(s, f, op);
      case OnBo(b, op) => Frames.BoQuiet(s, b, op);
      case OnJob(j, op) => JobReads(s, j, op);
      case OnCore(c, op) => CoreReads(s, c, op);
      case _ =>
    }
  }

  // Having given up is final.
  lemma AdvanceReads(s: State, t: nat, ok: bool, arg: nat)
    requires Inv(s) && t < |s.threads| && CanAdvance(s, t, ok, arg)
    ensures var s' := AdvanceThread(s, t, ok, arg);
      && (GaveUp(s.threads[t]) && |s'.threads| == |s.threads| ==> GaveUp(s'.threads[t]))
      && (forall j | 0 <= j < |s.jobs| :: j < |s'.jobs| && s'.jobs[j].submitter == s.jobs[j].submitter)
  {
    hide Inv, WellTyped, AdvanceThread, CanAdvance;
    Launching.InvTyped(s);
    SameSubmitters(s, t, ok, arg);
    if s.threads[t].pc.PutTask? || s.threads[t].pc.Done? {
      StaysGivenUp(s, t, ok, arg);
    }
  }

  lemma StaysGivenUp(s: State, t: nat, ok: bool, arg: nat)
    requires WellTyped(s) && t < |s.threads| && (s.threads[t].pc.PutTask? || s.threads[t].pc.Done?)
    ensures var s' := AdvanceThread(s, t, ok, arg);
      GaveUp(s.threads[t]) && |s'.threads| == |s.threads| ==> GaveUp(s'.threads[t])
  {
    hide WellTyped;
  }

  lemma SameSubmitters(s: State, t: nat, ok: bool, arg: nat)
    requires WellTyped(s) && t < |s.threads|
    ensures var s' := AdvanceThread(s, t, ok, arg);
      forall j | 0 <= j < |s.jobs| :: j < |s'.jobs| && s'.jobs[j].submitter == s.jobs[j].submitter
  {
    var pc := s.threads[t].pc;
    if pc.Lookup? || pc.Create? || pc.Install? || pc.Discard? {
      hide AdvanceThread;
      Frames.GetQuiet(s, t, ok, arg);
    } else if CreatePc(pc) {
      hide AdvanceThread;
      Frames.MakeQuiet(s, t, ok, arg);
    } else {
      hide WellTyped, DropDom, DropJob;
      Frames.DropJobQuiet(s, Submitter(t));
    }
  }

  lemma JobReads(s: State, j: nat, op: JobOp)
    requires Inv(s) && ReadsOk(s) && j < |s.jobs| && JobEnabled(s, j, op)
    ensures ReadsOk(JobApply(s, j, op))
  {
    hide IoInv, CoresOk, Attached, Flights, PowerOk, History, DropJob;
    Frames.DropJobQuiet(CleanBase(s, j), Sched(j));
  }

  lemma CoreReads(s: State, c: nat, op: CoreOp)
    requires Inv(s) && Owned(s) && ReadsOk(s) && c < |s.cores| && CoreEnabled(s, c, op)
    ensures ReadsOk(CoreApply(s, c, op))
  {
    hide Inv, WellTyped, Owned;
    Launching.InvTyped(s);
    if op.TimedOut? || op.Count? {
      assert CoreTyped(|s.jobs|, s.cores[c]) by { CoreTypedAt(s, c); }
    } else {
      hide CoreApply, CoreEnabled;
      CoreMoves(s, c, op);
      if op.Section? || op.Interrupt? {
        LaunchReads(s, c, op);
      } else {
        StaleKept(s, c, op);
      }
    }
  }

  lemma CoreTypedAt(s: State, c: nat)
    requires WellTyped(s) && c < |s.cores|
    ensures CoreTyped(|s.jobs|, s.cores[c])
  {
  }

  lemma CoreMoves(s: State, c: nat, op: CoreOp)
    requires Inv(s) && c < |s.cores| && CoreEnabled(s, c, op) && !op.TimedOut? && !op.Count?
    ensures Onward(s, CoreApply(s, c, op))
  {
    hide IoInv, Attached, Flights, PowerOk, History, WellTyped, CoreApply, CoreEnabled;
    assert CoreOk(c, s.cores[c], s.jobs);
    CoreShape(s, c, op);
  }

  lemma StaleKept(s: State, c: nat, op: CoreOp)
    requires WellTyped(s) && c < |s.cores| && CoreEnabled(s, c, op)
    requires !op.Section? && !op.Interrupt? && !op.Count?
    ensures CoreApply(s, c, op).stale == s.stale
  {
    hide WellTyped;
  }

  // ---- over whole runs ----

  lemma {:induction false} RunReads(s: State, steps: seq<Step>)
    requires Inv(s) && Owned(s) && ReadsOk(s) && ValidRun(s, steps)
    ensures ReadsOk(After(s, steps))
    decreases |steps|
  {
    hide Inv, Owned, ReadsOk, WellTyped, Enabled, Apply;
    if steps != [] {
      StepKeeps(s, steps[0]);
      OwnedKeeps(s, steps[0]);
      ReadsKeep(s, steps[0]);
      RunReads(Apply(s, steps[0]), steps[1..]);
    }
  }

  // If a submit has reported success, its job is finished and every launch of it, in the
  // whole run, read a mapped task array.
  lemma SuccessIsSound(s: State, steps: seq<Step>, j: nat)
    requires Initial(s) && s.policy.AttachOnce? && ValidRun(s, steps)
    requires var e := After(s, steps);
      j < |e.jobs| && e.jobs[j].submitter < |e.threads| && e.threads[e.jobs[j].submitter].success
    ensures var e := After(s, steps); var th := e.threads[e.jobs[j].submitter];
      e.jobs[j].st.Finished? && TaskArray(j) !in e.stale && th.counter == th.number
  {
    hide IoInv, CoresOk, Attached, Flights, PowerOk, History, WellTyped, Enabled, Apply, ValidRun;
    Reached(s, steps);
    InitiallyOk(s);
    RunReads(s, steps);
    var e := After(s, steps);
    assert OwnedJob(j, e.jobs[j], e.threads);
    SubmitReports(e, e.jobs[j].submitter);
  }
}
