/**
 Whole runs of the domain pool: the events of a run, in order, are a lawful history of an
 atomic pool that gives every caller the answer it got.
 */
module PoolRuns {
  import opened Options
  import opened Machine
  import opened Invariants
  import opened Runs
  import opened Pool
  import opened Frames
  import Launching
  import R = Refs

  function AsSeq(e: Option<Event>): seq<Event> {
    if e.Some? then [e.value] else []
  }

  // The pool's events in a run: each successful call's own lookup or install section, and each
  // clearing of a filled slot.
  ghost function EventsIn(s: State, steps: seq<Step>): seq<Event>
    requires ValidRun(s, steps)
    decreases |steps|
  {
    if steps == [] then [] else AsSeq(EventOf(s, steps[0])) + EventsIn(Apply(s, steps[0]), steps[1..])
  }

  // Has the closing of the file passed slot i?
  predicate Cleared(f: FilePhase, i: nat) {
    f.Closed? || (f.Draining? && i < f.slot)
  }

  // A slot is cleared once, only by its file's close; no call of a file follows the first
  // clearing of one of its slots; a thread calls once.
  ghost predicate InOrder(es: seq<Event>) {
    forall k, m | 0 <= k < m < |es| ::
      && (es[k].Clear? && es[m].Clear? ==> es[k] != es[m])
      && (es[k].Clear? && es[m].Get? ==> es[k].file != es[m].file)
      && (es[k].Get? && es[m].Get? ==> es[k].thread != es[m].thread)
  }

  ghost predicate Lawful(es: seq<Event>, files: seq<FilePhase>, threads: seq<Thread>) {
    && InOrder(es)
    && (forall k | 0 <= k < |es| :: EventOk(es[k], files, threads))
    && (forall t | 0 <= t < |threads| && AfterGot(threads[t].pc) :: exists k :: 0 <= k < |es| && IsCall(es[k], t))
  }

  predicate IsCall(e: Event, t: nat) {
    e.Get? && e.thread == t
  }

  // A call's event is for the file and normalised id of its thread, whose get is over; a
  // clearing is one the file's close has come to.
  ghost predicate EventOk(e: Event, files: seq<FilePhase>, threads: seq<Thread>) {
    match e
    case Get(t, f, i, spare) =>
      t < |threads| && threads[t].file == f && threads[t].idx == i && !BeforeGet(threads[t].pc)
    case Clear(f, i) => f < |files| && Cleared(files[f], i)
  }

  // ---- one step ----

  // Calls and closes only move forward; only the stepping call can pass its get, and then by
  // its event.
  ghost predicate Forward(s: State, s': State, e: Option<Event>) {
    && |s.files| <= |s'.files| && |s.threads| <= |s'.threads|
    && (forall f, i: nat | 0 <= f < |s.files| && Cleared(s.files[f], i) :: Cleared(s'.files[f], i))
    && (forall t | 0 <= t < |s.threads| ::
          && s'.threads[t].file == s.threads[t].file && s'.threads[t].idx == s.threads[t].idx
          && (BeforeGet(s'.threads[t].pc) ==> BeforeGet(s.threads[t].pc))
          && (AfterGot(s'.threads[t].pc) ==> AfterGot(s.threads[t].pc) || (e.Some? && IsCall(e.value, t))))
    && (forall t | |s.threads| <= t < |s'.threads| :: BeforeGet(s'.threads[t].pc))
  }

  lemma AdvanceForward(s: State, t: nat, ok: bool, arg: nat)
    requires Inv(s) && WellTyped(s) && t < |s.threads| && CanAdvance(s, t, ok, arg)
    ensures Forward(s, AdvanceThread(s, t, ok, arg), CallEvent(s, t))
  {
    hide Inv, WellTyped, AdvanceThread, CanAdvance, Progress, Table;
    ThreadKind(s, t);
    AdvanceQuiet(s, t, ok, arg);
    CallProgress(s, t, ok, arg);
    ProgressParts(s.threads[t], AdvanceThread(s, t, ok, arg).threads[t]);
  }

  lemma ProgressParts(a: Thread, b: Thread)
    requires Progress(a, b)
    ensures b.file == a.file && b.idx == a.idx
    ensures BeforeGet(b.pc) ==> BeforeGet(a.pc)
    ensures AfterGot(b.pc) ==> AfterGot(a.pc) || a.pc.Lookup? || a.pc.Install?
    ensures a.pc.Wait? ==> b.success
    ensures a.submit && AfterWait(a.pc) ==> AfterWait(b.pc) && b.success == a.success
  {
  }

  lemma CallProgress(s: State, t: nat, ok: bool, arg: nat)
    requires Inv(s) && WellTyped(s) && t < |s.threads| && CanAdvance(s, t, ok, arg)
    ensures var s' := AdvanceThread(s, t, ok, arg);
      && |s'.threads| == |s.threads| && Progress(s.threads[t], s'.threads[t])
      && (AfterGot(s'.threads[t].pc) && s.threads[t].pc.Lookup? ==> MySlot(s, t) in s.domRefs.ptr)
  {
    hide Inv, WellTyped, AdvanceThread, CanAdvance, Progress;
    ThreadKind(s, t);
    var pc := s.threads[t].pc;
    if pc.Lookup? || pc.Create? || pc.Install? || pc.Discard? {
      GetProgress(s, t, ok, arg);
    } else if !s.threads[t].submit {
      if pc.UndoMap? || pc.UndoInsert? || pc.UndoDomain? || pc.UndoAlloc? {
        UndoProgress(s, t, ok, arg);
      } else {
        MakeProgress(s, t, ok, arg);
      }
    } else if pc.Push? || pc.Wait? {
      PushProgress(s, t, ok, arg);
    } else if pc.Vmap? || pc.Alloc? || pc.InitJob? {
      SetupProgress(s, t, ok, arg);
    } else {
      EndProgress(s, t, ok, arg);
    }
  }

  lemma FileForward(s: State, f: nat, op: FileOp)
    requires WellTyped(s) && f < |s.files| && FileEnabled(s, f, op)
    ensures var s' := FileApply(s, f, op);
      && s'.threads == s.threads && |s'.files| == |s.files|
      && (forall g, i: nat | 0 <= g < |s.files| && Cleared(s.files[g], i) :: Cleared(s'.files[g], i))
      && (op.CloseDomain? ==> Cleared(s'.files[f], s.files[f].slot))
  {
    hide DropDom;
    Launching.FileQuiet(s, f, op);
    if op.CloseDomain? {
      CloseSlotFiles(s, f, s.files[f].slot);
    }
  }

  lemma CloseSlotFiles(s: State, f: nat, i: nat)
    requires f < |s.files|
    ensures CloseSlot(s, f, i).files
         == s.files[f := if i + 1 < MAX_DOMAINS then Draining(i + 1) else FilePhase.Closed]
  {
    hide DropDom;
    var s1 := s.(files := s.files[f := if i + 1 < MAX_DOMAINS then Draining(i + 1) else FilePhase.Closed]);
    if Slot(f, i) in s.domRefs.ptr && s.domRefs.ptr[Slot(f, i)] in s.doms {
      DropDomQuiet(Raise(s1, s.doms[s.domRefs.ptr[Slot(f, i)]].space.nodes != map[], AllocatorNotEmpty), Slot(f, i));
    }
  }

  lemma StepForward(s: State, st: Step)
    requires Inv(s) && WellTyped(s) && Enabled(s, st)
    ensures Forward(s, Apply(s, st), EventOf(s, st))
  {
    hide Inv, WellTyped, AdvanceThread, CanAdvance, BoApply, BoEnabled, JobApply, JobEnabled, CoreApply, CoreEnabled,
      FileApply, FileEnabled, CallEvent, Forward;
    var s' := Apply(s, st);
    match st {
      case Advance(t, ok, arg) => AdvanceForward(s, t, ok, arg);
      case OnFile(f, op) =>
        FileForward(s, f, op);
        assert Forward(s, s', EventOf(s, st)) by { SameCalls(s, s', EventOf(s, st)); }
      case OnBo(b, op) =>
        BoQuiet(s, b, op);
        SameCalls(s, s', None);
      case OnJob(j, op) =>
        JobSame(s, j, op);
        SameCalls(s, s', None);
      case OnCore(c, op) =>
        CoreSame(s, c, op);
        SameCalls(s, s', None);
      case _ => StartForward(s, st);
    }
  }

  lemma SameCalls(s: State, s': State, e: Option<Event>)
    requires s'.threads == s.threads && |s'.files| == |s.files|
    requires forall f, i: nat | 0 <= f < |s.files| && Cleared(s.files[f], i) :: Cleared(s'.files[f], i)
    ensures Forward(s, s', e)
  {
  }

  lemma StartForward(s: State, st: Step)
    requires WellTyped(s) && Enabled(s, st)
    requires st.OpenFile? || st.StartMemCreate? || st.StartSubmit? || st.Expire?
    ensures Forward(s, Apply(s, st), None)
  {
    hide WellTyped;
  }

  lemma JobSame(s: State, j: nat, op: JobOp)
    requires WellTyped(s) && j < |s.jobs| && JobEnabled(s, j, op)
    ensures JobApply(s, j, op).threads == s.threads && JobApply(s, j, op).files == s.files
  {
    hide DropJob;
    DropJobQuiet(CleanBase(s, j), Sched(j));
  }

  lemma CoreSame(s: State, c: nat, op: CoreOp)
    requires WellTyped(s) && c < |s.cores| && CoreEnabled(s, c, op)
    ensures CoreApply(s, c, op).threads == s.threads && CoreApply(s, c, op).files == s.files
  {
    assert |s.cores| == |s.mmus| && CoreTyped(|s.jobs|, s.cores[c]);
    hide WellTyped;
  }

  // An event's call was still before its get, in an open file; a clearing is the next of its
  // file's close.
  ghost predicate Timely(s: State, e: Event) {
    match e
    case Get(t, f, i, spare) =>
      && t < |s.threads| && BeforeGet(s.threads[t].pc) && s.threads[t].file == f && s.threads[t].idx == i
      && InFile(s.files, f)
    case Clear(f, i) => f < |s.files| && s.files[f] == Draining(i)
  }

  lemma EventTimely(s: State, st: Step)
    requires Inv(s) && Enabled(s, st) && EventOf(s, st).Some?
    ensures Timely(s, EventOf(s, st).value)
  {
    hide R.Balanced, DomHolders, DomLinks, Gens, Spaces, BoRefs, JobRefs, CoresOk, Attached, Flights, PowerOk, History,
      GrantsOk, WellTyped, Table;
  }

  lemma EventDone(s: State, st: Step)
    requires Inv(s) && WellTyped(s) && Enabled(s, st) && EventOf(s, st).Some?
    ensures EventOk(EventOf(s, st).value, Apply(s, st).files, Apply(s, st).threads)
  {
    hide Inv, WellTyped, AdvanceThread, CanAdvance, FileApply, FileEnabled, Table, Progress;
    match st {
      case Advance(t, ok, arg) => GetDone(s, t, ok, arg);
      case OnFile(f, op) => FileForward(s, f, op);
      case _ =>
    }
  }

  lemma GetDone(s: State, t: nat, ok: bool, arg: nat)
    requires Inv(s) && WellTyped(s) && t < |s.threads| && CallEvent(s, t).Some?
    ensures var s' := AdvanceThread(s, t, ok, arg); EventOk(CallEvent(s, t).value, s'.files, s'.threads)
  {
    hide Inv, Granted, Table;
    assert ThreadTyped(s, s.threads[t]);
    hide WellTyped;
    if s.threads[t].pc.Lookup? || MySlot(s, t) in s.domRefs.ptr {
      GrantedQuiet(s, t, s.domRefs.ptr[MySlot(s, t)],
                   if s.threads[t].pc.Lookup? then AfterGet(s.threads[t]) else Discard);
    } else {
      CandHeld(s, t);
      GrantedQuiet(s.(domRefs := R.Move(s.domRefs, Cand(t), MySlot(s, t))), t, s.domRefs.ptr[Cand(t)],
                   AfterGet(s.threads[t]));
    }
  }

  lemma StepLawful(s: State, st: Step, es: seq<Event>)
    requires Inv(s) && WellTyped(s) && Enabled(s, st) && Lawful(es, s.files, s.threads)
    ensures Lawful(es + AsSeq(EventOf(s, st)), Apply(s, st).files, Apply(s, st).threads)
  {
    hide Inv, WellTyped, Enabled, Apply, EventOf;
    StepForward(s, st);
    if EventOf(s, st).Some? {
      EventTimely(s, st);
      EventDone(s, st);
    }
    Append(s, Apply(s, st), es, EventOf(s, st));
  }

  lemma Append(s: State, s': State, es: seq<Event>, e: Option<Event>)
    requires Lawful(es, s.files, s.threads) && Forward(s, s', e)
    requires e.Some? ==> Timely(s, e.value) && EventOk(e.value, s'.files, s'.threads)
    ensures Lawful(es + AsSeq(e), s'.files, s'.threads)
  {
    var all := es + AsSeq(e);
    forall k | 0 <= k < |all| ensures EventOk(all[k], s'.files, s'.threads) {
      if k < |es| {
        assert EventOk(es[k], s.files, s.threads);
      }
    }
    forall k, m | 0 <= k < m < |all|
      ensures all[k].Clear? && all[m].Clear? ==> all[k] != all[m]
      ensures all[k].Clear? && all[m].Get? ==> all[k].file != all[m].file
      ensures all[k].Get? && all[m].Get? ==> all[k].thread != all[m].thread
    {
      assert EventOk(es[k], s.files, s.threads);
    }
    forall t | 0 <= t < |s'.threads| && AfterGot(s'.threads[t].pc)
      ensures exists k :: 0 <= k < |all| && IsCall(all[k], t)
    {
      if e.Some? && IsCall(e.value, t) {
        assert IsCall(all[|es|], t);
      } else {
        assert AfterGot(s.threads[t].pc);
        var k :| 0 <= k < |es| && IsCall(es[k], t);
        assert IsCall(all[k], t);
      }
    }
  }

  // ---- whole runs ----

  lemma {:induction false} ReplayAppend(pool: map<DomHolder, nat>, es: seq<Event>, e: Event)
    ensures Replay(pool, es + [e]) == PoolAfter(Replay(pool, es), e)
    ensures Answers(pool, es + [e]) == Answers(pool, es) + Answer(Replay(pool, es), e)
    decreases |es|
  {
    if es == [] {
      assert (es + [e])[1..] == [];
    } else {
      assert (es + [e])[1..] == es[1..] + [e];
      ReplayAppend(PoolAfter(pool, es[0]), es[1..], e);
    }
  }

  // es explains s: the atomic pool that did es is s's pool, gave s's answers, and was lawful.
  ghost predicate Explains(es: seq<Event>, s: State) {
    && Replay(map[], es) == Slots(s) && Answers(map[], es) == s.grants
    && Lawful(es, s.files, s.threads) && Unseen(s)
  }

  lemma StepExplains(s: State, st: Step, es: seq<Event>)
    requires Inv(s) && WellTyped(s) && Enabled(s, st) && Explains(es, s)
    ensures Explains(es + AsSeq(EventOf(s, st)), Apply(s, st))
  {
    hide Inv, WellTyped, Enabled, Apply, EventOf, Slots, Lawful, Unseen;
    StepLinear(s, st);
    StepLawful(s, st, es);
    if EventOf(s, st).Some? {
      ReplayAppend(map[], es, EventOf(s, st).value);
    } else {
      assert es + [] == es;
    }
  }

  lemma {:induction false} RunExplains(s: State, steps: seq<Step>, es: seq<Event>)
    requires Inv(s) && Explains(es, s) && ValidRun(s, steps)
    ensures Explains(es + EventsIn(s, steps), After(s, steps))
    decreases |steps|
  {
    hide Inv, WellTyped, Enabled, Apply, EventOf, Explains;
    if steps == [] {
      assert es + [] == es;
    } else {
      StepKeeps(s, steps[0]);
      StepExplains(s, steps[0], es);
      var e := AsSeq(EventOf(s, steps[0]));
      RunExplains(Apply(s, steps[0]), steps[1..], es + e);
      assert es + EventsIn(s, steps) == es + e + EventsIn(Apply(s, steps[0]), steps[1..]);
    }
  }

  // The pool linearises.  In every run, taking each call of rocket_iommu_domain_get at its own
  // lookup or install section, the calls and the clearings of slots are a lawful history of an
  // atomic get-or-create pool: it leaves the same pool and gives each thread the same answer.
  lemma PoolLinearises(s: State, steps: seq<Step>)
    requires Initial(s) && s.policy.AttachOnce? && ValidRun(s, steps)
    ensures var es, e := EventsIn(s, steps), After(s, steps);
      && Replay(map[], es) == Slots(e) && Answers(map[], es) == e.grants
      && Lawful(es, e.files, e.threads)
    ensures Unseen(After(s, steps))
  {
    hide Inv, WellTyped, Enabled, Apply, EventOf, EventsIn;
    InitiallyOk(s);
    assert Slots(s) == map[];
    RunExplains(s, steps, []);
    assert [] + EventsIn(s, steps) == EventsIn(s, steps);
  }

  // ---- what a lawful history implies ----

  // Event k fills its slot.
  predicate Installs(es: seq<Event>, k: nat)
    requires k < |es|
  {
    es[k].Get? && Slot(es[k].file, es[k].idx) !in Replay(map[], es[..k])
  }

  // A slot that is filled stays filled with the same domain until it is cleared.
  lemma {:induction false} StaysFilled(es: seq<Event>, k: nat, m: nat, slot: DomHolder)
    requires k <= m <= |es| && slot.Slot? && slot in Replay(map[], es[..k])
    requires forall n | k <= n < m :: es[n] != Clear(slot.f, slot.i)
    ensures slot in Replay(map[], es[..m]) && Replay(map[], es[..m])[slot] == Replay(map[], es[..k])[slot]
    decreases m - k
  {
    if k < m {
      StaysFilled(es, k, m - 1, slot);
      ReplayAppend(map[], es[..m - 1], es[m - 1]);
      assert es[..m] == es[..m - 1] + [es[m - 1]];
    }
  }

  // After a call for it, a slot is filled.
  lemma FilledBy(es: seq<Event>, k: nat)
    requires k < |es| && es[k].Get?
    ensures Slot(es[k].file, es[k].idx) in Replay(map[], es[..k + 1])
  {
    ReplayAppend(map[], es[..k], es[k]);
    assert es[..k + 1] == es[..k] + [es[k]];
  }

  // Each slot is installed at most once, ever.
  lemma InstalledOnce(es: seq<Event>, k: nat, m: nat)
    requires InOrder(es) && k < m < |es| && es[k].Get? && Installs(es, m)
    ensures Slot(es[k].file, es[k].idx) != Slot(es[m].file, es[m].idx)
  {
    var slot := Slot(es[k].file, es[k].idx);
    if slot == Slot(es[m].file, es[m].idx) {
      FilledBy(es, k);
      forall n | k + 1 <= n < m ensures es[n] != Clear(slot.f, slot.i) {
        assert es[n].Clear? ==> es[n].file != es[m].file;
      }
      StaysFilled(es, k + 1, m, slot);
      assert false;
    }
  }

  // Over a whole run, all callers of one file with one normalised id got the same domain.
  lemma OneDomainPerId(s: State, steps: seq<Step>, k: nat, m: nat)
    requires Initial(s) && s.policy.AttachOnce? && ValidRun(s, steps)
    requires var g := After(s, steps).grants;
      k < |g| && m < |g| && g[k].file == g[m].file && g[k].idx == g[m].idx
    ensures var g := After(s, steps).grants; g[k].gen == g[m].gen
  {
    hide R.Balanced, DomHolders, DomLinks, Gens, Spaces, OnlyOpen, BoRefs, JobRefs, CoresOk, Attached, Flights, PowerOk,
      History, WellTyped, Enabled, Apply;
    InitiallyOk(s);
    RunKeeps(s, steps);
  }

  // What buffers and jobs of an open file hold for an id is what its calls were answered.
  lemma HeldIsAnswered(s: State, k: nat, h: DomHolder)
    requires Reachable(s) && k < |s.grants| && InFile(s.files, s.grants[k].file) && h in s.domRefs.ptr
    requires match h
      case BoDom(b) => b < |s.bos| && s.bos[b].file == s.grants[k].file && s.bos[b].idx == s.grants[k].idx
      case JobDom(j) => j < |s.jobs| && s.jobs[j].file == s.grants[k].file && s.jobs[j].idx == s.grants[k].idx
      case _ => false
    ensures s.domRefs.ptr[h] in s.doms && s.doms[s.domRefs.ptr[h]].gen == s.grants[k].gen
  {
    hide R.Balanced, DomHolders, Gens, Spaces, OnlyOpen, BoRefs, JobRefs, CoresOk, Attached, Flights, PowerOk, History,
      WellTyped, Reachable;
    ReachableInv(s);
    assert GrantOk(s.grants[k], s.files, s.domRefs.ptr, s.doms);
    assert LinkOk(h, s.domRefs.ptr[h], s.domRefs.ptr, s.doms, s.files, s.threads, s.bos, s.jobs);
  }
}
