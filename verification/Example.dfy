/**
 One concrete run from start to a hardware launch, and the run in which the submitter's wait
 expires first.
 */
module Example {
  import opened Options
  import opened Machine
  import opened Invariants
  import opened Runs
  import opened Driver
  import Launching
  import R = Refs
  import P = Power
  import A = AddressSpace

  // One core, an aperture of sixteen pages, nothing opened yet.
  function Start(): State {
    State(AttachOnce, 0, 16 * A.PAGE, [], [], [], [], R.Refs(map[], map[]), map[], 0, R.Refs(map[], map[]),
          R.Refs(map[], map[]), {}, [Core(None, Unlocked, Idle, Quiet, false, None, 0, {}, {})], [Mmu(None, None)],
          P.Unit(0, [1]), [], [], {}, {})
  }

  function Creator(pc: Pc): Thread {
    Thread(0, false, 0, 0, None, pc, 0, 0, 0, 0, false)
  }

  ghost predicate Goes(s: State, st: Step, e: State)
    requires WellTyped(s)
  {
    Enabled(s, st) && Apply(s, st) == e
  }

  // The run `steps` leads from Start to s.
  ghost predicate Reaches(steps: seq<Step>, s: State) {
    ValidRun(Start(), steps) && After(Start(), steps) == s && Inv(s) && WellTyped(s)
  }

  lemma Extend(steps: seq<Step>, s: State, st: Step, e: State)
    requires Reaches(steps, s) && Goes(s, st, e)
    ensures Reaches(steps + [st], e)
  {
    hide Inv, WellTyped, Enabled, Apply, ValidRun, After;
    OneStep(s, st);
    Launching.InvTyped(e);
    Chain(Start(), steps, s, [st], e);
  }

  // ---- a client opens the device and creates one page in domain 0, at address 7 ----

  function Opened(): State {
    Start().(files := [Open])
  }

  function Called(pc: Pc): State {
    Opened().(threads := [Creator(pc)], bos := [Bo(0, 0, 0, A.PAGE, 0, Fresh, false)],
              boRefs := R.Refs(map[Maker(0) := 0], map[0 := 1]))
  }

  function Space0(nodes: map<nat, A.Node>, pt: map<nat, A.Frame>): map<nat, Dom> {
    map[7 := Dom(0, 0, 0, A.Space(0, 16 * A.PAGE, nodes, pt))]
  }

  function Candidate(): State {
    Called(Install).(domRefs := R.Refs(map[Cand(0) := 7], map[7 := 1]), doms := Space0(map[], map[]), gen := 1)
  }

  function InDomain(pc: Pc): State {
    Called(pc).(bos := [Bo(0, 0, 0, A.PAGE, 0, HasDomain, false)],
                domRefs := R.Refs(map[Slot(0, 0) := 7, BoDom(0) := 7], map[7 := 2]), doms := Space0(map[], map[]),
                gen := 1, grants := [Grant(0, 0, 0, 0)])
  }

  function Inserted(): State {
    InDomain(MapIova).(bos := [Bo(0, 0, 0, A.PAGE, 0, HasNode, false)],
                       doms := Space0(map[0 := A.Node(0, A.PAGE, false)], map[]))
  }

  function InTable(pc: Pc, published: bool): State {
    InDomain(pc).(bos := [Bo(0, 0, 0, A.PAGE, 0, Mapped, published)],
                  boRefs := if published then R.Refs(map[Maker(0) := 0, Handle(0) := 0], map[0 := 2])
                            else InDomain(pc).boRefs,
                  doms := Space0(map[0 := A.Node(0, A.PAGE, true)], map[0 := A.Frame(0, 0)]))
  }

  function Made(): State {
    InTable(Done, true).(threads := [Creator(Done).(success := true)],
                         boRefs := R.Refs(map[Handle(0) := 0], map[0 := 1]))
  }

  // ---- then submits one task from that buffer to core 0 ----

  function Submitting(pc: Pc, job: Option<nat>): Thread {
    Thread(0, true, 0, 0, job, pc, 0, 1, 1, 0, false)
  }

  function Called1(pc: Pc, maps: set<nat>): State {
    Made().(threads := [Creator(Done).(success := true), Submitting(pc, None)],
            boRefs := R.Refs(map[Handle(0) := 0, Task(1) := 0], map[0 := 2]), maps := maps)
  }

  function Allocated(pc: Pc, base: Base): State {
    Called1(pc, {1}).(threads := [Creator(Done).(success := true), Submitting(pc, Some(0))],
                      jobs := [Job(0, 0, 0, 1, 0, 0, false, Init, base, 0, Inside, 1)],
                      jobRefs := R.Refs(map[Submitter(1) := 0], map[0 := 1]))
  }

  function WithDomain(pc: Pc): State {
    Allocated(pc, Ready).(domRefs := R.Refs(map[Slot(0, 0) := 7, BoDom(0) := 7, JobDom(0) := 7], map[7 := 3]),
                          grants := [Grant(0, 0, 0, 0), Grant(1, 0, 0, 0)])
  }

  function Waiting(): State {
    WithDomain(Wait).(jobs := [Job(0, 0, 0, 1, 0, 0, false, Queued, Ready, 0, Inside, 1)],
                      jobRefs := R.Refs(map[Submitter(1) := 0, Sched(0) := 0], map[0 := 2]))
  }

  lemma Step1()
    requires WellTyped(Start())
    ensures Goes(Start(), OpenFile, Opened())
  {
  }

  lemma Step2()
    requires WellTyped(Opened())
    ensures Goes(Opened(), StartMemCreate(0, 0, A.PAGE), Called(Lookup))
  {
    assert A.Pages(A.PAGE) == 1;
  }

  lemma Step3a()
    requires WellTyped(Called(Lookup))
    ensures Goes(Called(Lookup), Advance(0, true, 0), Called(Create))
  {
    hide WellTyped;
  }

  lemma Step3b()
    requires WellTyped(Called(Create))
    ensures Goes(Called(Create), Advance(0, true, 7), Candidate())
  {
    hide WellTyped;
  }

  lemma Step4()
    requires WellTyped(Candidate())
    ensures Goes(Candidate(), Advance(0, true, 0), InDomain(Pages))
  {
    hide WellTyped;
    var s := Candidate();
    assert R.Move(s.domRefs, Cand(0), Slot(0, 0)) == R.Refs(map[Slot(0, 0) := 7], map[7 := 1]);
  }

  lemma Step5a()
    requires WellTyped(InDomain(Pages))
    ensures Goes(InDomain(Pages), Advance(0, true, 0), InDomain(Insert))
  {
    hide WellTyped;
  }

  lemma Step5b()
    requires WellTyped(InDomain(Insert))
    ensures Goes(InDomain(Insert), Advance(0, true, 0), Inserted())
  {
    hide WellTyped;
  }

  lemma MapOne()
    ensures A.Map(A.Space(0, 16 * A.PAGE, map[0 := A.Node(0, A.PAGE, false)], map[]), 0)
         == A.Space(0, 16 * A.PAGE, map[0 := A.Node(0, A.PAGE, true)], map[0 := A.Frame(0, 0)])
  {
    assert A.Pages(A.PAGE) == 1;
    assert A.PageRange(0, 1) == {0};
  }

  lemma OnePage()
    ensures A.Pages(A.PAGE) == 1
  {
  }

  lemma Step6()
    requires WellTyped(Inserted())
    ensures Goes(Inserted(), Advance(0, true, 0), InTable(MakeHandle, false))
  {
    hide WellTyped, A.Map, A.Pages;
    MapOne();
    OnePage();
  }

  lemma Step7()
    requires WellTyped(InTable(MakeHandle, false))
    ensures Goes(InTable(MakeHandle, false), Advance(0, true, 0), InTable(Finish, true))
  {
    hide WellTyped;
  }

  lemma Step8()
    requires WellTyped(InTable(Finish, true))
    ensures Goes(InTable(Finish, true), Advance(0, true, 0), Made())
  {
    hide WellTyped;
    assert R.Put(InTable(Finish, true).boRefs, Maker(0)) == Made().boRefs;
  }

  lemma Step9a()
    requires WellTyped(Made())
    ensures Goes(Made(), StartSubmit(0, 0, 0, 0, 1, 1), Called1(Vmap, {}))
  {
    hide WellTyped;
  }

  lemma Step9b()
    requires WellTyped(Called1(Vmap, {}))
    ensures Goes(Called1(Vmap, {}), Advance(1, true, 0), Called1(Alloc, {1}))
  {
    hide WellTyped;
  }

  lemma Step10a()
    requires WellTyped(Called1(Alloc, {1}))
    ensures Goes(Called1(Alloc, {1}), Advance(1, true, 0), Allocated(InitJob, Raw))
  {
    hide WellTyped;
  }

  lemma Step10b()
    requires WellTyped(Allocated(InitJob, Raw))
    ensures Goes(Allocated(InitJob, Raw), Advance(1, true, 0), Allocated(Lookup, Ready))
  {
    hide WellTyped;
  }

  lemma Step11()
    requires WellTyped(Allocated(Lookup, Ready))
    ensures Goes(Allocated(Lookup, Ready), Advance(1, true, 0), WithDomain(Push))
  {
    hide WellTyped;
  }

  lemma Step12()
    requires WellTyped(WithDomain(Push))
    ensures Goes(WithDomain(Push), Advance(1, true, 0), Waiting())
  {
    hide WellTyped;
  }


  // ---- the runs ----

  lemma ToStart()
    ensures Initial(Start()) && Reaches([], Start())
  {
    InitiallyOk(Start());
    EmptyRun(Start());
  }

  lemma Take(steps: seq<Step>, s: State, st: Step, e: State) returns (more: seq<Step>)
    requires Reaches(steps, s) && Goes(s, st, e)
    ensures Reaches(more, e) && WellTyped(e)
  {
    hide Goes, Reaches;
    Extend(steps, s, st, e);
    ReachesTyped(steps + [st], e);
    more := steps + [st];
  }

  lemma ReachesTyped(steps: seq<Step>, s: State)
    requires Reaches(steps, s)
    ensures WellTyped(s)
  {
    hide Inv, WellTyped, ValidRun, After;
  }

  // MEM_CREATE succeeds.
  lemma ToMade() returns (run: seq<Step>)
    ensures Reaches(run, Made()) && WellTyped(Made())
  {
    hide Reaches, Goes, WellTyped, Initial;
    ToStart();
    ReachesTyped([], Start());
    Step1();
    run := Take([], Start(), OpenFile, Opened());
    Step2();
    run := Take(run, Opened(), StartMemCreate(0, 0, A.PAGE), Called(Lookup));
    Step3a();
    run := Take(run, Called(Lookup), Advance(0, true, 0), Called(Create));
    Step3b();
    run := Take(run, Called(Create), Advance(0, true, 7), Candidate());
    Step4();
    run := Take(run, Candidate(), Advance(0, true, 0), InDomain(Pages));
    Step5a();
    run := Take(run, InDomain(Pages), Advance(0, true, 0), InDomain(Insert));
    Step5b();
    run := Take(run, InDomain(Insert), Advance(0, true, 0), Inserted());
    Step6();
    run := Take(run, Inserted(), Advance(0, true, 0), InTable(MakeHandle, false));
    Step7();
    run := Take(run, InTable(MakeHandle, false), Advance(0, true, 0), InTable(Finish, true));
    Step8();
    run := Take(run, InTable(Finish, true), Advance(0, true, 0), Made());
  }

  // SUBMIT queues its job and waits.
  lemma ToWaiting() returns (run: seq<Step>)
    ensures Reaches(run, Waiting()) && WellTyped(Waiting())
  {
    hide Reaches, Goes, WellTyped;
    run := ToMade();
    Step9a();
    run := Take(run, Made(), StartSubmit(0, 0, 0, 0, 1, 1), Called1(Vmap, {}));
    Step9b();
    run := Take(run, Called1(Vmap, {}), Advance(1, true, 0), Called1(Alloc, {1}));
    Step10a();
    run := Take(run, Called1(Alloc, {1}), Advance(1, true, 0), Allocated(InitJob, Raw));
    Step10b();
    run := Take(run, Allocated(InitJob, Raw), Advance(1, true, 0), Allocated(Lookup, Ready));
    Step11();
    run := Take(run, Allocated(Lookup, Ready), Advance(1, true, 0), WithDomain(Push));
    Step12();
    run := Take(run, WithDomain(Push), Advance(1, true, 0), Waiting());
  }

  // The job is launched, through the client's domain 0.
  lemma LaunchReached() returns (run: seq<Step>)
    ensures Initial(Start()) && ValidRun(Start(), run)
    ensures After(Start(), run).launches == [Launch(0, 0, Some(0))] && After(Start(), run).stale == {}
  {
    hide Inv, WellTyped, ValidRun, After;
    ToStart();
    run := ToWaiting();
    CanLaunch();
    RunIsRun(Waiting(), 0, 0, 7, 1, false);
    LaunchedOnce();
    Chain(Start(), run, Waiting(), RunSteps(Waiting(), 0, 0, 1, false), RunDone(Waiting(), 0, 0, 7, 1, false));
    run := run + RunSteps(Waiting(), 0, 0, 1, false);
  }

  lemma CanLaunch()
    requires WellTyped(Waiting())
    ensures Starting(Waiting(), 0, 0)
  {
    hide WellTyped;
  }

  lemma LaunchedOnce()
    ensures var e := RunDone(Waiting(), 0, 0, 7, 1, false); e.launches == [Launch(0, 0, Some(0))] && e.stale == {}
  {
  }

  // ---- the wait expires first ----

  function Expired(pc: Pc, maps: set<nat>, refs: R.Refs<JobHolder, nat>): State {
    Waiting().(threads := [Creator(Done).(success := true), Submitting(pc, Some(0))], maps := maps, jobRefs := refs)
  }

  const BothHold: R.Refs<JobHolder, nat> := R.Refs(map[Submitter(1) := 0, Sched(0) := 0], map[0 := 2])
  const SchedHolds: R.Refs<JobHolder, nat> := R.Refs(map[Sched(0) := 0], map[0 := 1])

  lemma Step13()
    requires WellTyped(Waiting())
    ensures Goes(Waiting(), Expire(1), Expired(PutJob, {1}, BothHold))
  {
    hide WellTyped;
  }

  lemma SubmitterDrops(s: State)
    requires s.jobRefs == BothHold && |s.jobs| > 0
    ensures DropJob(s, Submitter(1)) == s.(jobRefs := SchedHolds)
  {
    assert R.Put(BothHold, Submitter(1)) == SchedHolds;
  }

  lemma Step14()
    requires WellTyped(Expired(PutJob, {1}, BothHold))
    ensures Goes(Expired(PutJob, {1}, BothHold), Advance(1, true, 0), Expired(Vunmap, {1}, SchedHolds))
  {
    hide WellTyped, DropJob;
    SubmitterDrops(Expired(PutJob, {1}, BothHold));
  }

  lemma Step15()
    requires WellTyped(Expired(Vunmap, {1}, SchedHolds))
    ensures Goes(Expired(Vunmap, {1}, SchedHolds), Advance(1, true, 0), Expired(PutTask, {}, SchedHolds))
  {
    hide WellTyped;
    assert {1} - {1} == {};
  }

  // The wait can expire while the job is still queued; its launch then finds the task array
  // unmapped.
  lemma ExpiryExposes() returns (run: seq<Step>)
    ensures Initial(Start()) && ValidRun(Start(), run)
    ensures After(Start(), run).stale == {TaskArray(0)}
  {
    hide Inv, WellTyped, ValidRun, After, Reaches, Goes;
    ToStart();
    run := ToWaiting();
    Step13();
    run := Take(run, Waiting(), Expire(1), Expired(PutJob, {1}, BothHold));
    Step14();
    run := Take(run, Expired(PutJob, {1}, BothHold), Advance(1, true, 0), Expired(Vunmap, {1}, SchedHolds));
    Step15();
    run := Take(run, Expired(Vunmap, {1}, SchedHolds), Advance(1, true, 0), Expired(PutTask, {}, SchedHolds));
    var s := Expired(PutTask, {}, SchedHolds);
    ReachedParts(run, s);
    CanLaunchExpired();
    RunIsRun(s, 0, 0, 7, 1, false);
    LaunchedStale();
    Chain(Start(), run, s, RunSteps(s, 0, 0, 1, false), RunDone(s, 0, 0, 7, 1, false));
    run := run + RunSteps(s, 0, 0, 1, false);
  }

  lemma ReachedParts(run: seq<Step>, s: State)
    requires Reaches(run, s)
    ensures Inv(s) && WellTyped(s) && ValidRun(Start(), run) && After(Start(), run) == s
  {
    hide Inv, WellTyped, ValidRun, After;
  }

  lemma CanLaunchExpired()
    requires WellTyped(Expired(PutTask, {}, SchedHolds))
    ensures Starting(Expired(PutTask, {}, SchedHolds), 0, 0)
  {
    hide WellTyped;
  }

  lemma LaunchedStale()
    ensures RunDone(Expired(PutTask, {}, SchedHolds), 0, 0, 7, 1, false).stale == {TaskArray(0)}
  {
  }

  // ---- a success without a launch ----

  // The submit, waiting or reporting success.
  function Reporting(pc: Pc): Thread {
    if pc.Wait? then Submitting(pc, Some(0)) else Submitting(pc, Some(0)).(counter := 1, success := true)
  }

  function SkippedJob(pc: Pc): State {
    Waiting().(threads := [Creator(Done).(success := true), Reporting(pc)],
               jobs := [Waiting().jobs[0].(st := Finished, exit := Skipped(false))])
  }

  lemma Step16()
    requires WellTyped(Waiting())
    ensures Goes(Waiting(), OnJob(0, Skip), SkippedJob(Wait))
  {
    hide WellTyped;
  }

  lemma Step17()
    requires WellTyped(SkippedJob(Wait))
    ensures Goes(SkippedJob(Wait), Advance(1, true, 0), SkippedJob(PutJob))
  {
    hide WellTyped;
  }

  // rocket_job_run returns no fence for the job, for want of memory say, and SUBMIT reports that
  // all its tasks are done although the hardware was never started.
  lemma SuccessWithoutLaunch() returns (run: seq<Step>)
    ensures Initial(Start()) && ValidRun(Start(), run)
    ensures var e := After(Start(), run);
      && |e.threads| == 2 && e.threads[1].success && e.threads[1].counter == e.threads[1].number == 1
      && e.launches == [] && e.faults == {}
  {
    hide Inv, WellTyped, ValidRun, After, Reaches, Goes;
    ToStart();
    run := ToWaiting();
    Step16();
    run := Take(run, Waiting(), OnJob(0, Skip), SkippedJob(Wait));
    Step17();
    run := Take(run, SkippedJob(Wait), Advance(1, true, 0), SkippedJob(PutJob));
    ReachedParts(run, SkippedJob(PutJob));
  }

  // ---- the timeout handler counts a freed job ----

  function InFlightCore(reset: Reset, pending: bool): Core {
    Core(Some(0), Unlocked, Idle, reset, pending, Some(0), 1, {}, {})
  }

  function Launched(reset: Reset, pending: bool): State {
    Waiting().(jobs := [Job(0, 0, 0, 1, 1, 0, false, Active, Ready, 1, Inside, 1)],
               cores := [InFlightCore(reset, pending)], mmus := [Mmu(Some(7), Some(0))], pm := P.Unit(1, [2]),
               launches := [Launch(0, 0, Some(0))])
  }

  function ResetCore(reset: Reset, slot: Option<nat>): Core {
    Core(None, Unlocked, Idle, reset, false, slot, 1, {}, {})
  }

  function ResetState(): State {
    Launched(Quiet, false).(cores := [ResetCore(Resumable(0), Some(0))], mmus := [Mmu(None, None)],
                            pm := P.Unit(0, [1]))
  }

  function CancelledJob(base: Base): Job {
    Job(0, 0, 0, 1, 1, 0, false, Finished, base, 1, Cancelled(false), 1)
  }

  function CancelledState(pc: Pc, refs: R.Refs<JobHolder, nat>): State {
    ResetState().(cores := [ResetCore(Restarted(0), None)], jobs := [CancelledJob(Ready)],
                  threads := [Creator(Done).(success := true), Reporting(pc)], jobRefs := refs)
  }

  function FreedState(): State {
    CancelledState(Vunmap, SchedHolds).(jobs := [CancelledJob(Clean)], jobRefs := R.Refs(map[], map[]),
                            domRefs := R.Refs(map[Slot(0, 0) := 7, BoDom(0) := 7], map[7 := 2]))
  }

  lemma ToLaunched() returns (run: seq<Step>)
    ensures Reaches(run, Launched(Quiet, false)) && WellTyped(Launched(Quiet, false))
  {
    hide Inv, WellTyped, ValidRun, After, Goes;
    ToStart();
    run := ToWaiting();
    CanLaunch();
    RunIsRun(Waiting(), 0, 0, 7, 1, false);
    LaunchedIs();
    Chain(Start(), run, Waiting(), RunSteps(Waiting(), 0, 0, 1, false), RunDone(Waiting(), 0, 0, 7, 1, false));
    Launching.InvTyped(Launched(Quiet, false));
    run := run + RunSteps(Waiting(), 0, 0, 1, false);
  }

  lemma LaunchedIs()
    ensures RunDone(Waiting(), 0, 0, 7, 1, false) == Launched(Quiet, false)
  {
  }

  lemma Step18()
    requires WellTyped(Launched(Quiet, false))
    ensures Goes(Launched(Quiet, false), OnCore(0, TimedOut(0)), Launched(Pending(0), true))
  {
    hide WellTyped;
  }

  lemma Step19()
    requires WellTyped(Launched(Pending(0), true))
    ensures Goes(Launched(Pending(0), true), OnCore(0, StopSched), Launched(Stopped(0), true))
  {
    hide WellTyped;
  }

  lemma ResetIs()
    ensures ResetDone(Launched(Stopped(0), true), 0) == ResetState()
  {
  }

  lemma Step20()
    requires WellTyped(ResetState())
    ensures Goes(ResetState(), OnCore(0, StartSched(false)), CancelledState(Wait, BothHold))
  {
    hide WellTyped;
  }

  lemma Step21()
    requires WellTyped(CancelledState(Wait, BothHold))
    ensures Goes(CancelledState(Wait, BothHold), Advance(1, true, 0), CancelledState(PutJob, BothHold))
  {
    hide WellTyped;
  }

  lemma Step22()
    requires WellTyped(CancelledState(PutJob, BothHold))
    ensures Goes(CancelledState(PutJob, BothHold), Advance(1, true, 0), CancelledState(Vunmap, SchedHolds))
  {
    hide WellTyped, DropJob, CancelledState;
    var s := CancelledState(PutJob, BothHold);
    CancelledThread(PutJob, BothHold);
    SubmitterDrops(s);
    assert Apply(s, Advance(1, true, 0)) == Goto(s.(jobRefs := SchedHolds), 1, Vunmap);
    CancelledGoes();
  }

  lemma CancelledThread(pc: Pc, refs: R.Refs<JobHolder, nat>)
    ensures var s := CancelledState(pc, refs);
      s.threads == [Creator(Done).(success := true), Reporting(pc)] && s.jobRefs == refs && |s.jobs| == 1
  {
  }

  lemma CancelledGoes()
    ensures var s := CancelledState(PutJob, BothHold);
      |s.threads| == 2 && Goto(s.(jobRefs := SchedHolds), 1, Vunmap) == CancelledState(Vunmap, SchedHolds)
  {
  }

  lemma LastPut(s: State)
    requires s.jobRefs == SchedHolds && s.jobs == [CancelledJob(Clean)]
    requires s.domRefs == Waiting().domRefs && s.doms.Keys == {7}
    ensures DropJob(s, Sched(0))
         == s.(jobRefs := R.Refs(map[], map[]), domRefs := R.Refs(map[Slot(0, 0) := 7, BoDom(0) := 7], map[7 := 2]))
  {
    assert R.Put(SchedHolds, Sched(0)) == R.Refs(map[], map[]);
    assert R.Put(Waiting().domRefs, JobDom(0)) == R.Refs(map[Slot(0, 0) := 7, BoDom(0) := 7], map[7 := 2]);
  }

  lemma Step23()
    requires WellTyped(CancelledState(Vunmap, SchedHolds))
    ensures Goes(CancelledState(Vunmap, SchedHolds), OnJob(0, Free), FreedState())
  {
    hide WellTyped, DropJob;
    LastPut(CleanBase(CancelledState(Vunmap, SchedHolds), 0));
  }

  lemma CountedFreed()
    requires WellTyped(FreedState())
    ensures Enabled(FreedState(), OnCore(0, Count))
    ensures var e := Apply(FreedState(), OnCore(0, Count)); e.stale == {TimeoutCount(0)} && e.faults == {}
  {
    hide WellTyped;
  }

  // A job hangs, its timeout cancels it, the submitter returns, success reported, and the
  // scheduler frees the job before the handler gets to ++timeout_count.
  lemma CountExposes() returns (run: seq<Step>)
    ensures Initial(Start()) && ValidRun(Start(), run)
    ensures After(Start(), run).stale == {TimeoutCount(0)} && After(Start(), run).faults == {}
  {
    hide Inv, WellTyped, ValidRun, After, Reaches, Goes, Enabled, Apply;
    ToStart();
    run := ToLaunched();
    Step18();
    run := Take(run, Launched(Quiet, false), OnCore(0, TimedOut(0)), Launched(Pending(0), true));
    Step19();
    run := Take(run, Launched(Pending(0), true), OnCore(0, StopSched), Launched(Stopped(0), true));
    run := AfterReset(run);
    Step20();
    run := Take(run, ResetState(), OnCore(0, StartSched(false)), CancelledState(Wait, BothHold));
    Step21();
    run := Take(run, CancelledState(Wait, BothHold), Advance(1, true, 0), CancelledState(PutJob, BothHold));
    Step22();
    run := Take(run, CancelledState(PutJob, BothHold), Advance(1, true, 0), CancelledState(Vunmap, SchedHolds));
    Step23();
    run := Take(run, CancelledState(Vunmap, SchedHolds), OnJob(0, Free), FreedState());
    CountedFreed();
    run := LastStep(run, FreedState(), OnCore(0, Count));
  }

  lemma AfterReset(run: seq<Step>) returns (more: seq<Step>)
    requires Reaches(run, Launched(Stopped(0), true))
    ensures Reaches(more, ResetState()) && WellTyped(ResetState())
  {
    hide Inv, WellTyped, ValidRun, After;
    var s := Launched(Stopped(0), true);
    ResetIsRun(s, 0);
    ResetIs();
    Chain(Start(), run, s, ResetSteps(0), ResetState());
    Launching.InvTyped(ResetState());
    more := run + ResetSteps(0);
  }

  lemma LastStep(run: seq<Step>, s: State, st: Step) returns (more: seq<Step>)
    requires Reaches(run, s) && WellTyped(s) && Enabled(s, st)
    ensures ValidRun(Start(), more) && After(Start(), more) == Apply(s, st)
  {
    hide Inv, WellTyped, ValidRun, After, Enabled, Apply;
    OneStep(s, st);
    Chain(Start(), run, s, [st], Apply(s, st));
    more := run + [st];
  }
}
