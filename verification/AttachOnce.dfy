/**
 The attach-once cache refines attach-per-job: on every run the two schemes launch the same
 jobs on the same cores through the same page tables.
 */
module AttachOnce {
  import opened Options
  import opened Machine
  import opened Invariants
  import opened Runs
  import Frames
  import RunProof
  import R = Refs

  // The same driver state under the per-job scheme, with attachments m.
  function Naive(s: State, m: seq<Mmu>): State {
    s.(policy := AttachPerJob, mmus := m)
  }

  // Where the per-job scheme is attached at all, it is attached as the cache says.
  ghost predicate Below(m: seq<Mmu>, mmus: seq<Mmu>) {
    |m| == |mmus| && forall c | 0 <= c < |m| :: m[c] == mmus[c] || m[c] == Mmu(None, None)
  }

  // With a job in flight both schemes are attached alike; without, the per-job scheme is not
  // attached at all.
  ghost predicate InStep(cores: seq<Core>, m: seq<Mmu>, mmus: seq<Mmu>) {
    |cores| == |m| == |mmus| && forall c | 0 <= c < |cores| :: FlightInStep(cores[c], m[c], mmus[c])
  }

  ghost predicate FlightInStep(core: Core, a: Mmu, b: Mmu) {
    a == if core.flight.Some? && !InIrq(core.lock) && !core.lock.ResetDetached? then b else Mmu(None, None)
  }

  ghost predicate Shadow(s: State, n: State) {
    n == Naive(s, n.mmus) && Below(n.mmus, s.mmus) && InStep(s.cores, n.mmus, s.mmus)
  }

  // ---- steps that do not look at the attachments ----

  lemma DropDomShadow(s: State, m: seq<Mmu>, h: DomHolder)
    requires Below(m, s.mmus) && DropDom(s, h).faults == {}
    ensures DropDom(Naive(s, m), h) == Naive(DropDom(s, h), m)
  {
    if h in s.domRefs.ptr && s.domRefs.ptr[h] in s.domRefs.kref && s.domRefs.ptr[h] in s.doms
      && R.IsLast(s.domRefs, h)
    {
      var g := s.doms[s.domRefs.ptr[h]].gen;
      assert UseAfterFree !in s.faults && !InUse(s.mmus, g);
      assert FreedWhileAttached !in DropDom(s, h).faults;
      forall c | 0 <= c < |m| ensures m[c].hw != Some(g) {
        assert m[c] == s.mmus[c] || m[c] == Mmu(None, None);
      }
    }
  }

  lemma TypedShadow(s: State, m: seq<Mmu>)
    requires WellTyped(s) && |m| == |s.mmus|
    ensures WellTyped(Naive(s, m))
  {
    var n := Naive(s, m);
    forall t | 0 <= t < |s.threads| ensures ThreadTyped(n, n.threads[t]) {
      assert ThreadTyped(s, s.threads[t]);
    }
    forall j | 0 <= j < |s.jobs| ensures JobTyped(n, n.jobs[j]) {
      assert JobTyped(s, s.jobs[j]);
    }
  }

  lemma DropJobShadow(s: State, m: seq<Mmu>, h: JobHolder)
    requires Below(m, s.mmus) && DropJob(s, h).faults == {}
    ensures DropJob(Naive(s, m), h) == Naive(DropJob(s, h), m)
  {
    hide DropDom;
    if h in s.jobRefs.ptr && s.jobRefs.ptr[h] in s.jobRefs.kref && s.jobRefs.ptr[h] < |s.jobs|
      && R.IsLast(s.jobRefs, h)
    {
      var j := s.jobRefs.ptr[h];
      var s2 := Raise(s.(jobRefs := R.Put(s.jobRefs, h)), s.jobs[j].base == Ready, BaseMisuse);
      if JobDom(j) in s.domRefs.ptr {
        DropDomShadow(s2, m, JobDom(j));
      }
    }
  }

  lemma GrantedShadow(s: State, m: seq<Mmu>, t: nat, a: nat, pc: Pc)
    requires WellTyped(s) && WellTyped(Naive(s, m)) && t < |s.threads|
    requires s.threads[t].submit ==> s.threads[t].job.Some?
    ensures Granted(Naive(s, m), t, a, pc) == Naive(Granted(s, t, a, pc), m)
  {
    hide WellTyped;
  }

  lemma GetShadow(s: State, m: seq<Mmu>, t: nat, ok: bool, arg: nat)
    requires WellTyped(s) && WellTyped(Naive(s, m)) && Below(m, s.mmus) && t < |s.threads|
    requires var pc := s.threads[t].pc; pc.Lookup? || pc.Create? || pc.Install? || pc.Discard?
    requires AdvanceThread(s, t, ok, arg).faults == {}
    ensures AdvanceThread(Naive(s, m), t, ok, arg) == Naive(AdvanceThread(s, t, ok, arg), m)
  {
    hide Below, DropDom, Granted;
    assert ThreadTyped(s, s.threads[t]);
    match s.threads[t].pc {
      case Lookup =>
        if MySlot(s, t) in s.domRefs.ptr {
          GrantedShadow(s, m, t, s.domRefs.ptr[MySlot(s, t)], AfterGet(s.threads[t]));
        }
      case Install =>
        if MySlot(s, t) in s.domRefs.ptr {
          GrantedShadow(s, m, t, s.domRefs.ptr[MySlot(s, t)], Discard);
        } else if Cand(t) in s.domRefs.ptr {
          var s1 := s.(domRefs := R.Move(s.domRefs, Cand(t), MySlot(s, t)));
          assert Naive(s, m).(domRefs := s1.domRefs) == Naive(s1, m);
          GrantedShadow(s1, m, t, s.domRefs.ptr[Cand(t)], AfterGet(s.threads[t]));
        }
      case Discard => DropDomShadow(s, m, Cand(t));
      case _ =>
    }
  }

  lemma MakeShadow(s: State, m: seq<Mmu>, t: nat, ok: bool, arg: nat)
    requires WellTyped(s) && WellTyped(Naive(s, m)) && t < |s.threads|
    requires var pc := s.threads[t].pc;
      pc.Pages? || pc.Insert? || pc.MapIova? || pc.MakeHandle? || pc.Finish? || pc.Done?
    ensures AdvanceThread(Naive(s, m), t, ok, arg) == Naive(AdvanceThread(s, t, ok, arg), m)
  {
    hide WellTyped;
  }

  lemma UndoShadow(s: State, m: seq<Mmu>, t: nat, ok: bool, arg: nat)
    requires WellTyped(s) && WellTyped(Naive(s, m)) && Below(m, s.mmus) && t < |s.threads|
    requires var pc := s.threads[t].pc; pc.UndoMap? || pc.UndoInsert? || pc.UndoDomain? || pc.UndoAlloc?
    requires AdvanceThread(s, t, ok, arg).faults == {}
    ensures AdvanceThread(Naive(s, m), t, ok, arg) == Naive(AdvanceThread(s, t, ok, arg), m)
  {
    hide WellTyped, Below, DropDom;
    if s.threads[t].pc.UndoDomain? {
      DropDomShadow(s, m, BoDom(s.threads[t].bo));
    }
  }

  lemma SubmitShadow(s: State, m: seq<Mmu>, t: nat, ok: bool, arg: nat)
    requires WellTyped(s) && WellTyped(Naive(s, m)) && Below(m, s.mmus) && t < |s.threads| && !CreatePc(s.threads[t].pc)
    requires AdvanceThread(s, t, ok, arg).faults == {}
    ensures AdvanceThread(Naive(s, m), t, ok, arg) == Naive(AdvanceThread(s, t, ok, arg), m)
  {
    hide WellTyped, Below, DropDom, DropJob;
    if s.threads[t].pc.PutJob? {
      DropJobShadow(s, m, Submitter(t));
    }
  }

  lemma BoShadow(s: State, m: seq<Mmu>, b: nat, op: BoOp)
    requires Below(m, s.mmus) && BoEnabled(s, b, op) && BoApply(s, b, op).faults == {}
    ensures BoEnabled(Naive(s, m), b, op) && BoApply(Naive(s, m), b, op) == Naive(BoApply(s, b, op), m)
  {
    hide Below, DropDom;
    if op.BoRelease? {
      DropDomShadow(s, m, BoDom(b));
    }
  }

  lemma JobShadow(s: State, m: seq<Mmu>, j: nat, op: JobOp)
    requires WellTyped(s) && WellTyped(Naive(s, m)) && Below(m, s.mmus) && j < |s.jobs|
    requires JobEnabled(s, j, op) && JobApply(s, j, op).faults == {}
    ensures JobEnabled(Naive(s, m), j, op) && JobApply(Naive(s, m), j, op) == Naive(JobApply(s, j, op), m)
  {
    hide WellTyped, Below, DropJob;
    if op.Free? {
      DropJobShadow(CleanBase(s, j), m, Sched(j));
    }
  }

  // ---- one core's step under both schemes ----

  // The ops that neither launch nor touch the attachments.
  predicate Neutral(op: CoreOp) {
    !op.Section? && !op.Interrupt? && !op.DetachCore?
  }

  lemma NeutralShadow(s: State, m: seq<Mmu>, c: nat, op: CoreOp)
    requires WellTyped(s) && WellTyped(Naive(s, m)) && c < |s.cores| && CoreEnabled(s, c, op) && Neutral(op)
    ensures CoreEnabled(Naive(s, m), c, op)
    ensures CoreApply(Naive(s, m), c, op) == Naive(CoreApply(s, c, op), m)
    ensures CoreApply(s, c, op).mmus == s.mmus
  {
    hide WellTyped;
  }

  lemma NeutralInStep(s: State, m: seq<Mmu>, c: nat, op: CoreOp)
    requires Inv(s) && InStep(s.cores, m, s.mmus) && c < |s.cores| && CoreEnabled(s, c, op) && Neutral(op)
    ensures InStep(CoreApply(s, c, op).cores, m, s.mmus)
  {
    hide IoInv, CoresOk, Attached, Flights, PowerOk, History;
    assert FlightInStep(s.cores[c], m[c], s.mmus[c]);
  }

  lemma CoreInStep(cores: seq<Core>, m: seq<Mmu>, mmus: seq<Mmu>, c: nat, core: Core, a: Mmu, b: Mmu)
    requires Below(m, mmus) && InStep(cores, m, mmus) && c < |cores| && FlightInStep(core, a, b)
    requires a == b || a == Mmu(None, None)
    ensures Below(m[c := a], mmus[c := b]) && InStep(cores[c := core], m[c := a], mmus[c := b])
  {
    var cores2, m2, mmus2 := cores[c := core], m[c := a], mmus[c := b];
    forall k | 0 <= k < |cores2| ensures FlightInStep(cores2[k], m2[k], mmus2[k]) {
      assert FlightInStep(cores[k], m[k], mmus[k]);
    }
  }

  // rocket_job_run: the per-job scheme attaches, the cache at most skips an attach that
  // would change nothing.
  lemma SectionShadow(s: State, m: seq<Mmu>, c: nat, attachErr: bool)
    requires Inv(s) && WellTyped(Naive(s, m)) && Shadow(s, Naive(s, m)) && c < |s.cores|
    requires CoreEnabled(s, c, Section(attachErr))
    ensures CoreEnabled(Naive(s, m), c, Section(attachErr))
    ensures Shadow(RunSection(s, c, attachErr), RunSection(Naive(s, m), c, attachErr))
  {
    hide IoInv, CoresOk, Attached, Flights, PowerOk, History, Below, InStep, WellTyped;
    var j := s.cores[c].run.job;
    Lengths(s, m);
    RunReady(s, c);
    var s' := RunSection(s, c, attachErr);
    CoreInStep(s.cores, m, s.mmus, c, s'.cores[c], s'.mmus[c], s'.mmus[c]);
    assert s'.cores == s.cores[c := s'.cores[c]];
    assert s'.mmus == s.mmus[c := s'.mmus[c]];
    assert RunSection(Naive(s, m), c, attachErr) == Naive(s', m[c := s'.mmus[c]]);
  }

  // With the cache matching the job's domain, skipping the attach leaves exactly what an
  // attach would establish.
  lemma RunReady(s: State, c: nat)
    requires Inv(s) && c < |s.cores| && s.cores[c].run.Powered?
    ensures c < |s.mmus| && JobLive(s, s.cores[c].run.job)
    ensures var a := s.domRefs.ptr[JobDom(s.cores[c].run.job)];
      s.mmus[c].attached == Some(a) ==> s.mmus[c] == Mmu(Some(a), Some(s.doms[a].gen))
  {
    hide IoInv, Flights, PowerOk, History;
    assert CoreOk(c, s.cores[c], s.jobs);
    RunProof.LiveJob(s, s.cores[c].run.job);
    assert AttachOk(c, s.mmus[c], s.doms, s.domRefs.ptr, s.files);
  }

  lemma IrqShadow(s: State, m: seq<Mmu>, c: nat)
    requires Inv(s) && WellTyped(Naive(s, m)) && Shadow(s, Naive(s, m)) && c < |s.cores| && s.cores[c].lock.Unlocked?
    ensures Shadow(Irq(s, c), Irq(Naive(s, m), c))
  {
    hide IoInv, CoresOk, Attached, Flights, PowerOk, History, Below, InStep, WellTyped;
    Lengths(s, m);
    var s' := Irq(s, c);
    var n' := Irq(Naive(s, m), c);
    assert FlightInStep(s.cores[c], m[c], s.mmus[c]) by { AtCore(s, m, c); }
    CoreInStep(s.cores, m, s.mmus, c, s'.cores[c], n'.mmus[c], s.mmus[c]);
    assert s'.cores == s.cores[c := s'.cores[c]];
    assert n'.mmus == m[c := n'.mmus[c]];
    assert s.mmus == s.mmus[c := s.mmus[c]];
  }

  lemma DetachShadow(s: State, m: seq<Mmu>, c: nat)
    requires Inv(s) && WellTyped(Naive(s, m)) && Shadow(s, Naive(s, m)) && c < |s.cores|
    ensures Shadow(ResetDetach(s, c), ResetDetach(Naive(s, m), c))
  {
    hide IoInv, CoresOk, Flights, PowerOk, History, Below, InStep, WellTyped;
    Lengths(s, m);
    var s' := ResetDetach(s, c);
    var n' := ResetDetach(Naive(s, m), c);
    assert AttachOk(c, s.mmus[c], s.doms, s.domRefs.ptr, s.files);
    CoreInStep(s.cores, m, s.mmus, c, s'.cores[c], n'.mmus[c], s'.mmus[c]);
    assert s'.mmus == s.mmus[c := s'.mmus[c]];
    assert n'.mmus == m[c := n'.mmus[c]];
  }

  lemma Lengths(s: State, m: seq<Mmu>)
    requires WellTyped(s) && Shadow(s, Naive(s, m))
    ensures |s.cores| == |m| == |s.mmus|
    ensures forall c | 0 <= c < |m| :: m[c] == s.mmus[c] || m[c] == Mmu(None, None)
  {
  }

  lemma AtCore(s: State, m: seq<Mmu>, c: nat)
    requires InStep(s.cores, m, s.mmus) && c < |s.cores|
    ensures FlightInStep(s.cores[c], m[c], s.mmus[c])
  {
  }

  lemma FileShadow(s: State, m: seq<Mmu>, f: nat, op: FileOp)
    requires Inv(s) && WellTyped(Naive(s, m)) && Shadow(s, Naive(s, m)) && f < |s.files| && FileEnabled(s, f, op)
    requires FileApply(s, f, op).faults == {}
    ensures FileEnabled(Naive(s, m), f, op)
    ensures Shadow(FileApply(s, f, op), FileApply(Naive(s, m), f, op))
  {
    hide IoInv, CoresOk, Attached, Flights, PowerOk, History, WellTyped, DropDom, Below, InStep;
    match op {
      case CloseBegin =>
      case CloseCore => CloseShadow(s, m, f);
      case CloseDomain =>
        var i := s.files[f].slot;
        var s1 := s.(files := s.files[f := if i + 1 < MAX_DOMAINS then Draining(i + 1) else Closed]);
        var h := Slot(f, i);
        if h in s.domRefs.ptr && s.domRefs.ptr[h] in s.doms {
          var s2 := Raise(s1, s.doms[s.domRefs.ptr[h]].space.nodes != map[], AllocatorNotEmpty);
          DropDomShadow(s2, m, h);
          DropDomMmus(s2, h);
        }
    }
  }

  lemma DropDomMmus(s: State, h: DomHolder)
    ensures DropDom(s, h).mmus == s.mmus && DropDom(s, h).cores == s.cores
  {
  }

  lemma CloseShadow(s: State, m: seq<Mmu>, f: nat)
    requires Inv(s) && WellTyped(Naive(s, m)) && Shadow(s, Naive(s, m)) && f < |s.files| && FileEnabled(s, f, CloseCore)
    ensures Shadow(FileApply(s, f, CloseCore), FileApply(Naive(s, m), f, CloseCore))
  {
    hide IoInv, CoresOk, Flights, PowerOk, History, WellTyped, Below, InStep;
    Lengths(s, m);
    var c := s.files[f].core;
    var s' := CloseDetach(s, f, c);
    var n' := CloseDetach(Naive(s, m), f, c);
    AtCore(s, m, c);
    assert AttachOk(c, s.mmus[c], s.doms, s.domRefs.ptr, s.files);
    CoreInStep(s.cores, m, s.mmus, c, s.cores[c], n'.mmus[c], s'.mmus[c]);
    assert s.cores == s.cores[c := s.cores[c]];
    assert s'.mmus == s.mmus[c := s'.mmus[c]];
    assert n'.mmus == m[c := n'.mmus[c]];
  }

  // ---- the simulation ----

  lemma SameEverywhere(s: State, s': State, n: State, n': State)
    requires Shadow(s, n) && s'.cores == s.cores && s'.mmus == s.mmus && n' == Naive(s', n.mmus)
    ensures Shadow(s', n')
  {
  }

  lemma ThreadShadow(s: State, m: seq<Mmu>, t: nat, ok: bool, arg: nat)
    requires Inv(s) && WellTyped(Naive(s, m)) && Shadow(s, Naive(s, m)) && t < |s.threads| && CanAdvance(s, t, ok, arg)
    ensures CanAdvance(Naive(s, m), t, ok, arg)
    ensures Shadow(AdvanceThread(s, t, ok, arg), AdvanceThread(Naive(s, m), t, ok, arg))
  {
    hide IoInv, CoresOk, Attached, Flights, PowerOk, History, WellTyped, InStep, Below, AdvanceThread;
    StepKeeps(s, Advance(t, ok, arg));
    Frames.AdvanceQuiet(s, t, ok, arg);
    var pc := s.threads[t].pc;
    if pc.Lookup? || pc.Create? || pc.Install? || pc.Discard? {
      GetShadow(s, m, t, ok, arg);
    } else if pc.Pages? || pc.Insert? || pc.MapIova? || pc.MakeHandle? || pc.Finish? || pc.Done? {
      MakeShadow(s, m, t, ok, arg);
    } else if pc.UndoMap? || pc.UndoInsert? || pc.UndoDomain? || pc.UndoAlloc? {
      UndoShadow(s, m, t, ok, arg);
    } else {
      SubmitShadow(s, m, t, ok, arg);
    }
    SameEverywhere(s, AdvanceThread(s, t, ok, arg), Naive(s, m), AdvanceThread(Naive(s, m), t, ok, arg));
  }

  lemma CoreShadow(s: State, m: seq<Mmu>, c: nat, op: CoreOp)
    requires Inv(s) && WellTyped(Naive(s, m)) && Shadow(s, Naive(s, m)) && c < |s.cores| && CoreEnabled(s, c, op)
    ensures CoreEnabled(Naive(s, m), c, op)
    ensures Shadow(CoreApply(s, c, op), CoreApply(Naive(s, m), c, op))
  {
    hide IoInv, CoresOk, Attached, Flights, PowerOk, History, WellTyped, InStep, Below;
    match op {
      case Section(attachErr) => SectionShadow(s, m, c, attachErr);
      case Interrupt => IrqShadow(s, m, c);
      case DetachCore => DetachShadow(s, m, c);
      case _ =>
        NeutralShadow(s, m, c, op);
        NeutralInStep(s, m, c, op);
    }
  }

  // The scheduler's own steps move no flight and no lock.
  lemma JobInStep(s: State, m: seq<Mmu>, j: nat, op: JobOp)
    requires WellTyped(s) && InStep(s.cores, m, s.mmus) && j < |s.jobs| && JobEnabled(s, j, op)
    ensures JobApply(s, j, op).mmus == s.mmus && InStep(JobApply(s, j, op).cores, m, s.mmus)
  {
    hide DropJob;
    var s' := JobApply(s, j, op);
    Frames.DropJobQuiet(CleanBase(s, j), Sched(j));
    forall c | 0 <= c < |s'.cores| ensures FlightInStep(s'.cores[c], m[c], s.mmus[c]) {
      assert FlightInStep(s.cores[c], m[c], s.mmus[c]);
    }
  }

  lemma NoFaults(s: State, st: Step)
    requires Inv(s) && Enabled(s, st)
    ensures Apply(s, st).faults == {}
  {
    hide IoInv, CoresOk, Attached, Flights, PowerOk, History, WellTyped, Apply;
    StepKeeps(s, st);
  }

  // One step of the driver is one step of the per-job scheme.
  lemma StepShadow(s: State, m: seq<Mmu>, st: Step)
    requires Inv(s) && WellTyped(s) && WellTyped(Naive(s, m)) && Shadow(s, Naive(s, m)) && Enabled(s, st)
    ensures Enabled(Naive(s, m), st)
    ensures Shadow(Apply(s, st), Apply(Naive(s, m), st))
  {
    hide WellTyped, InStep, Below, AdvanceThread, CanAdvance, CoreEnabled, CoreApply, JobEnabled, JobApply, BoApply,
      FileEnabled, FileApply, Inv;
    NoFaults(s, st);
    match st {
      case OnFile(f, op) => FileShadow(s, m, f, op);
      case Advance(t, ok, arg) => ThreadShadow(s, m, t, ok, arg);
      case OnBo(b, op) =>
        BoShadow(s, m, b, op);
        Frames.BoQuiet(s, b, op);
      case OnJob(j, op) =>
        JobShadow(s, m, j, op);
        JobInStep(s, m, j, op);
      case OnCore(c, op) => CoreShadow(s, m, c, op);
      case _ =>
    }
  }

  // The whole run, in lock step.
  lemma {:induction false} RunShadow(s: State, m: seq<Mmu>, steps: seq<Step>)
    requires Inv(s) && ValidRun(s, steps) && WellTyped(s) && Shadow(s, Naive(s, m))
    ensures ValidRun(Naive(s, m), steps)
    ensures Shadow(After(s, steps), After(Naive(s, m), steps))
    decreases |steps|
  {
    hide WellTyped, InStep, Below, Enabled, Apply, Inv;
    ShadowTyped(s, m);
    if steps != [] {
      StepShadow(s, m, steps[0]);
      StepKeeps(s, steps[0]);
      var s', n' := Apply(s, steps[0]), Apply(Naive(s, m), steps[0]);
      assert n' == Naive(s', n'.mmus);
      RunShadow(s', n'.mmus, steps[1..]);
    }
  }

  lemma ShadowTyped(s: State, m: seq<Mmu>)
    requires WellTyped(s) && Shadow(s, Naive(s, m))
    ensures WellTyped(Naive(s, m))
  {
    TypedShadow(s, m);
  }

  // Attach-once refines attach-per-job: started alike, the two schemes can take the same
  // steps (interrupts, resets, attach failures, closes and all) and launch the same jobs on
  // the same cores through the same page tables, in the same order; in the end they differ
  // in their attachments only, the per-job scheme being attached nowhere but under a job.
  lemma SameLaunches(s: State, steps: seq<Step>)
    requires Initial(s) && s.policy.AttachOnce? && ValidRun(s, steps)
    ensures var n := s.(policy := AttachPerJob);
      && ValidRun(n, steps)
      && After(n, steps).launches == After(s, steps).launches
      && After(n, steps) == After(s, steps).(policy := AttachPerJob, mmus := After(n, steps).mmus)
      && After(n, steps).faults == {}
      && (forall c | 0 <= c < |After(n, steps).cores| && c < |After(n, steps).mmus| ::
            After(n, steps).cores[c].flight.None? ==> After(n, steps).mmus[c] == Mmu(None, None))
  {
    hide Inv, Enabled, Apply;
    InitiallyOk(s);
    assert Shadow(s, Naive(s, s.mmus));
    RunShadow(s, s.mmus, steps);
    NoRunFaults(s, steps);
  }
}
