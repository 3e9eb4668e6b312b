/**
 What the ioctl steps leave alone: cores, attachments, power, launches and stale accesses.
 */
module Frames {
  import opened Options
  import opened Machine
  import opened Invariants
  import R = Refs

  ghost predicate Quiet(s: State, s': State) {
    && s'.cores == s.cores && s'.mmus == s.mmus && s'.pm == s.pm && s'.launches == s.launches && s'.stale == s.stale
    && s'.files == s.files
  }

  // The call has not reached the end of its rocket_iommu_domain_get.
  predicate BeforeGet(pc: Pc) {
    pc.Vmap? || pc.Alloc? || pc.InitJob? || pc.Lookup? || pc.Create? || pc.Install?
  }

  // The call is past a rocket_iommu_domain_get that succeeded.
  predicate AfterGot(pc: Pc) {
    pc.Discard? || pc.Pages? || pc.Insert? || pc.MapIova? || pc.MakeHandle? || pc.Finish?
    || pc.UndoMap? || pc.UndoInsert? || pc.UndoDomain? || pc.Push? || pc.Wait?
  }

  // The submitter has left the wait.
  predicate AfterWait(pc: Pc) {
    pc.PutJob? || pc.Vunmap? || pc.PutTask? || pc.Done?
  }

  // How a call moves when its thread takes a step.
  predicate Progress(a: Thread, b: Thread) {
    && b.file == a.file && b.idx == a.idx && b.submit == a.submit
    && (BeforeGet(b.pc) ==> BeforeGet(a.pc))
    && (AfterGot(b.pc) ==> AfterGot(a.pc) || a.pc.Lookup? || a.pc.Install?)
    && (a.pc.Wait? ==> b.success)
    && (a.submit && AfterWait(a.pc) ==> AfterWait(b.pc) && b.success == a.success)
  }

  ghost predicate OnlyThread(s: State, s': State, t: nat) {
    t < |s.threads| == |s'.threads| && s'.threads == s.threads[t := s'.threads[t]]
  }

  lemma DropDomQuiet(s: State, h: DomHolder)
    ensures var s' := DropDom(s, h);
      Quiet(s, s') && s' == s.(domRefs := s'.domRefs, doms := s'.doms, faults := s'.faults)
  {
  }

  lemma DropJobQuiet(s: State, h: JobHolder)
    ensures var s' := DropJob(s, h);
      Quiet(s, s') && s' == s.(domRefs := s'.domRefs, doms := s'.doms, jobRefs := s'.jobRefs, faults := s'.faults)
  {
    hide DropDom;
    if h in s.jobRefs.ptr && s.jobRefs.ptr[h] in s.jobRefs.kref && s.jobRefs.ptr[h] < |s.jobs| {
      var j := s.jobRefs.ptr[h];
      DropDomQuiet(Raise(s.(jobRefs := R.Put(s.jobRefs, h)), s.jobs[j].base == Ready, BaseMisuse), JobDom(j));
    }
  }

  lemma GrantedQuiet(s: State, t: nat, a: nat, pc: Pc)
    requires WellTyped(s) && t < |s.threads| && (s.threads[t].submit ==> s.threads[t].job.Some?)
    ensures var s' := Granted(s, t, a, pc);
      && Quiet(s, s') && s'.jobs == s.jobs && s'.threads == s.threads[t := s.threads[t].(pc := pc)]
      && s'.bos == if s.threads[t].submit then s.bos
                   else s.bos[s.threads[t].bo := s.bos[s.threads[t].bo].(st := HasDomain)]
  {
    hide WellTyped;
  }

  lemma GetQuiet(s: State, t: nat, ok: bool, arg: nat)
    requires WellTyped(s) && t < |s.threads|
    requires var pc := s.threads[t].pc; pc.Lookup? || pc.Create? || pc.Install? || pc.Discard?
    ensures var s' := AdvanceThread(s, t, ok, arg); Quiet(s, s') && s'.jobs == s.jobs && OnlyThread(s, s', t)
  {
    hide Granted, DropDom;
    assert ThreadTyped(s, s.threads[t]);
    DropDomQuiet(s, Cand(t));
    if s.threads[t].pc.Lookup? && MySlot(s, t) in s.domRefs.ptr {
      GrantedQuiet(s, t, s.domRefs.ptr[MySlot(s, t)], AfterGet(s.threads[t]));
    }
    if s.threads[t].pc.Install? {
      if MySlot(s, t) in s.domRefs.ptr {
        GrantedQuiet(s, t, s.domRefs.ptr[MySlot(s, t)], Discard);
      } else if Cand(t) in s.domRefs.ptr {
        GrantedQuiet(s.(domRefs := R.Move(s.domRefs, Cand(t), MySlot(s, t))), t, s.domRefs.ptr[Cand(t)],
                     AfterGet(s.threads[t]));
      }
    }
  }

  lemma MakeQuiet(s: State, t: nat, ok: bool, arg: nat)
    requires WellTyped(s) && t < |s.threads|
    requires var pc := s.threads[t].pc;
      pc.Pages? || pc.Insert? || pc.MapIova? || pc.MakeHandle? || pc.Finish? || pc.Done?
      || pc.UndoMap? || pc.UndoInsert? || pc.UndoDomain? || pc.UndoAlloc?
    ensures var s' := AdvanceThread(s, t, ok, arg); Quiet(s, s') && s'.jobs == s.jobs && OnlyThread(s, s', t)
  {
    hide WellTyped, DropDom;
    DropDomQuiet(s, BoDom(s.threads[t].bo));
  }

  lemma SubmitQuiet(s: State, t: nat, ok: bool, arg: nat)
    requires WellTyped(s) && t < |s.threads|
    requires !CreatePc(s.threads[t].pc)
    ensures var s' := AdvanceThread(s, t, ok, arg); Quiet(s, s') && OnlyThread(s, s', t)
  {
    hide WellTyped, DropDom, DropJob;
    DropJobQuiet(s, Submitter(t));
  }

  lemma GetProgress(s: State, t: nat, ok: bool, arg: nat)
    requires WellTyped(s) && t < |s.threads|
    requires var pc := s.threads[t].pc; pc.Lookup? || pc.Create? || pc.Install? || pc.Discard?
    ensures var s' := AdvanceThread(s, t, ok, arg);
      && |s'.threads| == |s.threads| && Progress(s.threads[t], s'.threads[t])
      && (AfterGot(s'.threads[t].pc) && s.threads[t].pc.Lookup? ==> MySlot(s, t) in s.domRefs.ptr)
  {
    hide Granted, DropDom, Quiet;
    assert ThreadTyped(s, s.threads[t]);
    DropDomQuiet(s, Cand(t));
    if s.threads[t].pc.Lookup? && MySlot(s, t) in s.domRefs.ptr {
      GrantedQuiet(s, t, s.domRefs.ptr[MySlot(s, t)], AfterGet(s.threads[t]));
    }
    if s.threads[t].pc.Install? {
      if MySlot(s, t) in s.domRefs.ptr {
        GrantedQuiet(s, t, s.domRefs.ptr[MySlot(s, t)], Discard);
      } else if Cand(t) in s.domRefs.ptr {
        GrantedQuiet(s.(domRefs := R.Move(s.domRefs, Cand(t), MySlot(s, t))), t, s.domRefs.ptr[Cand(t)],
                     AfterGet(s.threads[t]));
      }
    }
  }

  lemma MakeProgress(s: State, t: nat, ok: bool, arg: nat)
    requires WellTyped(s) && t < |s.threads| && !s.threads[t].submit
    requires var pc := s.threads[t].pc;
      pc.Pages? || pc.Insert? || pc.MapIova? || pc.MakeHandle? || pc.Finish? || pc.Done?
    ensures var s' := AdvanceThread(s, t, ok, arg);
      |s'.threads| == |s.threads| && Progress(s.threads[t], s'.threads[t])
  {
    hide WellTyped;
  }

  lemma UndoProgress(s: State, t: nat, ok: bool, arg: nat)
    requires WellTyped(s) && t < |s.threads| && !s.threads[t].submit
    requires var pc := s.threads[t].pc; pc.UndoMap? || pc.UndoInsert? || pc.UndoDomain? || pc.UndoAlloc?
    ensures var s' := AdvanceThread(s, t, ok, arg);
      |s'.threads| == |s.threads| && Progress(s.threads[t], s'.threads[t])
  {
    hide WellTyped, DropDom, Quiet;
    DropDomQuiet(s, BoDom(s.threads[t].bo));
  }

  lemma PushProgress(s: State, t: nat, ok: bool, arg: nat)
    requires WellTyped(s) && t < |s.threads|
    requires s.threads[t].pc.Push? || s.threads[t].pc.Wait?
    ensures var s' := AdvanceThread(s, t, ok, arg);
      |s'.threads| == |s.threads| && Progress(s.threads[t], s'.threads[t])
  {
    hide WellTyped;
  }

  lemma SetupProgress(s: State, t: nat, ok: bool, arg: nat)
    requires WellTyped(s) && t < |s.threads|
    requires var pc := s.threads[t].pc; pc.Vmap? || pc.Alloc? || pc.InitJob?
    ensures var s' := AdvanceThread(s, t, ok, arg);
      |s'.threads| == |s.threads| && Progress(s.threads[t], s'.threads[t])
  {
    hide WellTyped;
  }

  lemma EndProgress(s: State, t: nat, ok: bool, arg: nat)
    requires WellTyped(s) && t < |s.threads| && s.threads[t].submit
    requires var pc := s.threads[t].pc; pc.Cleanup? || pc.PutJob? || pc.Vunmap? || pc.PutTask? || pc.Done?
    ensures var s' := AdvanceThread(s, t, ok, arg);
      |s'.threads| == |s.threads| && Progress(s.threads[t], s'.threads[t])
  {
    hide WellTyped, DropJob, Quiet;
    DropJobQuiet(s, Submitter(t));
  }

  lemma AdvanceQuiet(s: State, t: nat, ok: bool, arg: nat)
    requires WellTyped(s) && t < |s.threads|
    ensures Quiet(s, AdvanceThread(s, t, ok, arg)) && OnlyThread(s, AdvanceThread(s, t, ok, arg), t)
  {
    hide AdvanceThread, WellTyped;
    var pc := s.threads[t].pc;
    if pc.Lookup? || pc.Create? || pc.Install? || pc.Discard? {
      GetQuiet(s, t, ok, arg);
    } else if CreatePc(pc) {
      MakeQuiet(s, t, ok, arg);
    } else {
      SubmitQuiet(s, t, ok, arg);
    }
  }

  lemma BoQuiet(s: State, b: nat, op: BoOp)
    requires BoEnabled(s, b, op)
    ensures Quiet(s, BoApply(s, b, op)) && BoApply(s, b, op).jobs == s.jobs && BoApply(s, b, op).threads == s.threads
  {
    hide DropDom;
    DropDomQuiet(s, BoDom(b));
  }
}
