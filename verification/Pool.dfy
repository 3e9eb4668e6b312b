/**
 The domain pool linearises: however lookups, creations and re-checks of concurrent callers
 interleave, the pool behaves like one with an atomic get-or-create.
 */
module Pool {
  import opened Options
  import opened Machine
  import opened Invariants
  import opened Runs
  import Launching
  import IoProof
  import R = Refs
  import A = AddressSpace

  // Which incarnation each pool slot and each uninstalled candidate names.
  ghost function Named(ptr: map<DomHolder, nat>, doms: map<nat, Dom>): map<DomHolder, nat> {
    map h | h in ptr && (h.Slot? || h.Cand?) && ptr[h] in doms :: doms[ptr[h]].gen
  }

  ghost function Table(s: State): map<DomHolder, nat> {
    Named(s.domRefs.ptr, s.doms)
  }

  // The pool alone.
  ghost function OnlySlots(m: map<DomHolder, nat>): map<DomHolder, nat> {
    map h | h in m && h.Slot? :: m[h]
  }

  ghost function Slots(s: State): map<DomHolder, nat> {
    OnlySlots(Table(s))
  }

  // ---- the atomic pool ----

  datatype Event =
      // one caller's get-or-create, where spare is the domain a creation would yield
    | Get(thread: nat, file: nat, idx: nat, spare: nat)
      // closing the file empties the slot
    | Clear(file: nat, idx: nat)

  function PoolAfter(pool: map<DomHolder, nat>, e: Event): map<DomHolder, nat> {
    var slot := Slot(e.file, e.idx);
    if e.Clear? then pool - {slot} else if slot in pool then pool else pool[slot := e.spare]
  }

  function Answer(pool: map<DomHolder, nat>, e: Event): seq<Grant> {
    var slot := Slot(e.file, e.idx);
    if e.Clear? then [] else [Grant(e.thread, e.file, e.idx, if slot in pool then pool[slot] else e.spare)]
  }

  function Replay(pool: map<DomHolder, nat>, es: seq<Event>): map<DomHolder, nat>
    decreases |es|
  {
    if es == [] then pool else Replay(PoolAfter(pool, es[0]), es[1..])
  }

  function Answers(pool: map<DomHolder, nat>, es: seq<Event>): seq<Grant>
    decreases |es|
  {
    if es == [] then [] else Answer(pool, es[0]) + Answers(PoolAfter(pool, es[0]), es[1..])
  }

  // ---- one step is at most one event ----

  // Candidates are unseen: nothing granted so far is a candidate, or from the future.
  ghost predicate Unseen(s: State) {
    && (forall k | 0 <= k < |s.grants| :: s.grants[k].gen < s.gen)
    && (forall h <- Table(s) :: h.Cand? ==> forall k | 0 <= k < |s.grants| :: s.grants[k].gen != Table(s)[h])
  }

  ghost predicate Invisible(s: State, s': State) {
    s'.grants == s.grants && s'.gen == s.gen && Table(s') == Table(s)
  }

  // The event of a call's next step: its first section if that finds the slot filled, else its
  // second; the candidate is the spare domain.
  ghost function CallEvent(s: State, t: nat): Option<Event>
    requires t < |s.threads|
  {
    var th := s.threads[t];
    if th.pc.Lookup? && MySlot(s, t) in s.domRefs.ptr then Some(Get(t, th.file, th.idx, 0))
    else if th.pc.Install? then Some(Get(t, th.file, th.idx, if Cand(t) in Table(s) then Table(s)[Cand(t)] else 0))
    else None
  }

  ghost function EventOf(s: State, st: Step): Option<Event> {
    match st
    case Advance(t, ok, arg) => if t < |s.threads| then CallEvent(s, t) else None
    case OnFile(f, op) =>
      if op.CloseDomain? && f < |s.files| && s.files[f].Draining? && Slot(f, s.files[f].slot) in s.domRefs.ptr then
        Some(Clear(f, s.files[f].slot))
      else None
    case _ => None
  }

  // From s to s' the pool does exactly this event, atomically, or nothing.
  ghost predicate Linear(s: State, s': State, e: Option<Event>) {
    && Slots(s') == (if e.None? then Slots(s) else PoolAfter(Slots(s), e.value))
    && s'.grants == s.grants + if e.None? then [] else Answer(Slots(s), e.value)
  }

  // ---- pointer updates ----

  lemma PutNamed(r: R.Refs<DomHolder, nat>, doms: map<nat, Dom>, h: DomHolder)
    requires R.Balanced(r) && r.kref.Keys == doms.Keys && h in r.ptr
    ensures R.IsLast(r, h) ==> Named(r.ptr - {h}, doms - {r.ptr[h]}) == Named(r.ptr, doms) - {h}
    ensures Named(r.ptr - {h}, doms) == Named(r.ptr, doms) - {h}
  {
    R.PutBalanced(r, h);
    hide R.Balanced;
  }

  lemma GetNamed(ptr: map<DomHolder, nat>, doms: map<nat, Dom>, h: DomHolder, a: nat)
    requires a in doms
    ensures Named(ptr[h := a], doms)
         == if h.Slot? || h.Cand? then Named(ptr, doms)[h := doms[a].gen] else Named(ptr, doms)
  {
  }

  lemma NewNamed(ptr: map<DomHolder, nat>, doms: map<nat, Dom>, t: nat, a: nat, dom: Dom)
    requires a !in doms && forall h <- ptr :: ptr[h] in doms
    ensures Named(ptr[Cand(t) := a], doms[a := dom]) == Named(ptr, doms)[Cand(t) := dom.gen]
  {
  }

  lemma MoveNamed(ptr: map<DomHolder, nat>, doms: map<nat, Dom>, from: DomHolder, to: DomHolder)
    requires from in ptr && ptr[from] in doms && to.Slot?
    ensures Named((ptr - {from})[to := ptr[from]], doms) == (Named(ptr, doms) - {from})[to := doms[ptr[from]].gen]
  {
  }

  lemma SpaceNamed(s: State, b: nat, sp: A.Space)
    requires HasSpace(s, b)
    ensures Table(SetSpace(s, b, sp)) == Table(s)
  {
  }

  lemma DropTable(s: State, h: DomHolder)
    requires R.Balanced(s.domRefs) && s.domRefs.kref.Keys == s.doms.Keys
    ensures var s' := DropDom(s, h); Table(s') == Table(s) - {h} && s'.grants == s.grants && s'.gen == s.gen
  {
    hide R.Balanced, Named;
    if h in s.domRefs.ptr {
      PutNamed(s.domRefs, s.doms, h);
      assert s.domRefs.ptr[h] in s.doms by { R.HolderLive(s.domRefs, h); }
    } else {
      NotNamed(s, h);
    }
  }

  lemma NotNamed(s: State, h: DomHolder)
    ensures (!h.Slot? && !h.Cand?) || h !in s.domRefs.ptr ==> Table(s) - {h} == Table(s)
  {
  }

  lemma DropJobTable(s: State, h: JobHolder)
    requires R.Balanced(s.domRefs) && s.domRefs.kref.Keys == s.doms.Keys
    ensures Invisible(s, DropJob(s, h))
  {
    hide DropDom, R.Balanced, Named;
    if h in s.jobRefs.ptr && s.jobRefs.ptr[h] in s.jobRefs.kref && s.jobRefs.ptr[h] < |s.jobs| {
      var j := s.jobRefs.ptr[h];
      var s2 := Raise(s.(jobRefs := R.Put(s.jobRefs, h)), s.jobs[j].base == Ready, BaseMisuse);
      DropTable(s2, JobDom(j));
      NotNamed(s2, JobDom(j));
    }
  }

  lemma GrantedTable(s: State, t: nat, a: nat, pc: Pc)
    requires WellTyped(s) && t < |s.threads| && (s.threads[t].submit ==> s.threads[t].job.Some?) && a in s.doms
    ensures var s' := Granted(s, t, a, pc); var th := s.threads[t];
      && Table(s') == Table(s) && s'.gen == s.gen
      && s'.grants == s.grants + [Grant(t, th.file, th.idx, s.doms[a].gen)]
  {
    assert a in s.domRefs.kref;
    hide WellTyped, Named;
    GetNamed(s.domRefs.ptr, s.doms, Target(s, t), a);
  }

  lemma SpaceTable(s: State, b: nat)
    requires b < |s.bos|
    ensures Invisible(s, UnmapBo(s, b)) && Invisible(s, RemoveNode(s, b))
  {
    hide Named;
    if HasSpace(s, b) {
      if b in SpaceOf(s, b).nodes {
        SpaceNamed(s, b, A.Unmap(SpaceOf(s, b), b, s.bos[b].size));
      }
      SpaceNamed(s, b, A.Remove(SpaceOf(s, b), b));
    }
  }

  lemma PoolFacts(s: State)
    requires Inv(s)
    ensures R.Balanced(s.domRefs) && s.domRefs.kref.Keys == s.doms.Keys
    ensures forall h <- s.domRefs.ptr :: s.domRefs.ptr[h] in s.doms
  {
    hide DomHolders, DomLinks, Gens, Spaces, OnlyOpen, BoRefs, JobRefs, CoresOk, Attached, Flights, PowerOk, History,
      GrantsOk, WellTyped;
  }

  // ---- rocket_iommu_domain_get ----

  lemma SlotNamed(s: State, h: DomHolder)
    requires h.Slot? && h in s.domRefs.ptr && s.domRefs.ptr[h] in s.doms
    ensures h in Slots(s) && Slots(s)[h] == Table(s)[h] == s.doms[s.domRefs.ptr[h]].gen && h in Table(s)
  {
  }

  lemma SlotFree(s: State, h: DomHolder)
    requires h !in s.domRefs.ptr
    ensures h !in Slots(s) && h !in Table(s)
  {
  }

  lemma SameSlots(s: State, s': State)
    requires Table(s') == Table(s)
    ensures Slots(s') == Slots(s)
  {
  }

  // What a pool slot names is no candidate, and is not from the future.
  lemma SeenAlready(s: State, h: DomHolder)
    requires Inv(s) && h.Slot? && h in s.domRefs.ptr && s.domRefs.ptr[h] in s.doms
    ensures s.doms[s.domRefs.ptr[h]].gen < s.gen
    ensures forall g <- Table(s) :: g.Cand? ==> Table(s)[g] != s.doms[s.domRefs.ptr[h]].gen
  {
    hide Spaces, OnlyOpen, BoRefs, JobRefs, CoresOk, Attached, Flights, PowerOk, History, GrantsOk, WellTyped;
  }

  lemma LookupLinear(s: State, t: nat)
    requires Inv(s) && t < |s.threads| && s.threads[t].pc.Lookup?
    ensures var s' := LookupStep(s, t); Linear(s, s', CallEvent(s, t)) && Table(s') == Table(s) && s'.gen == s.gen
    ensures var s' := LookupStep(s, t); Unseen(s) ==> Unseen(s')
  {
    hide IoInv, CoresOk, Attached, Flights, PowerOk, History, WellTyped, Granted, Table, Slots;
    IoProof.SelfOk(s, t);
    PoolFacts(s);
    Launching.InvTyped(s);
    var slot := MySlot(s, t);
    var s' := LookupStep(s, t);
    if slot in s.domRefs.ptr {
      GrantedTable(s, t, s.domRefs.ptr[slot], AfterGet(s.threads[t]));
      SlotNamed(s, slot);
      SameSlots(s, s');
      SeenAlready(s, slot);
    } else {
      SameTable(s, s');
      SameSlots(s, s');
    }
  }

  lemma CandSlots(s: State, s': State, h: DomHolder, g: nat)
    requires h.Cand? && (Table(s') == Table(s) - {h} || Table(s') == Table(s)[h := g])
    ensures Slots(s') == Slots(s)
  {
  }

  lemma CreateLinear(s: State, t: nat, ok: bool, a: nat)
    requires Inv(s) && t < |s.threads| && s.threads[t].pc.Create? && (ok ==> a !in s.doms)
    ensures var s' := CreateStep(s, t, ok, a); Linear(s, s', None) && (Unseen(s) ==> Unseen(s'))
  {
    hide IoInv, CoresOk, Attached, Flights, PowerOk, History, WellTyped, Named, Slots;
    PoolFacts(s);
    var s' := CreateStep(s, t, ok, a);
    if ok {
      var th := s.threads[t];
      NewNamed(s.domRefs.ptr, s.doms, t, a, Dom(th.file, th.idx, s.gen, A.Empty(s.lo, s.hi)));
      CandSlots(s, s', Cand(t), s.gen);
    } else {
      SameSlots(s, s');
    }
  }

  // The re-check: the winner's domain if there is one, else the caller's own becomes the pool's.
  lemma InstallLinear(s: State, t: nat)
    requires Inv(s) && t < |s.threads| && s.threads[t].pc.Install?
    ensures var s' := InstallStep(s, t); Linear(s, s', CallEvent(s, t)) && (Unseen(s) ==> Unseen(s'))
  {
    hide IoInv, CoresOk, Attached, Flights, PowerOk, History, WellTyped, Granted, Table, Slots;
    IoProof.SelfOk(s, t);
    PoolFacts(s);
    Launching.InvTyped(s);
    var slot := MySlot(s, t);
    var s' := InstallStep(s, t);
    if slot in s.domRefs.ptr {
      GrantedTable(s, t, s.domRefs.ptr[slot], Discard);
      SlotNamed(s, slot);
      SameSlots(s, s');
      SeenAlready(s, slot);
    } else {
      CandHeld(s, t);
      var g := s.doms[s.domRefs.ptr[Cand(t)]].gen;
      InstallTable(s, t);
      InstalledSlots(s, s', t, slot, g);
      SlotFree(s, slot);
      assert CallEvent(s, t) == Some(Get(t, s.threads[t].file, s.threads[t].idx, g)) by { CandNamed(s, t); }
      if Unseen(s) {
        InstalledUnseen(s, t);
      }
    }
  }

  lemma InstallTable(s: State, t: nat)
    requires WellTyped(s) && t < |s.threads| && s.threads[t].pc.Install? && MySlot(s, t) !in s.domRefs.ptr
    requires Cand(t) in s.domRefs.ptr && s.domRefs.ptr[Cand(t)] in s.doms
    ensures var s' := InstallStep(s, t); var g := s.doms[s.domRefs.ptr[Cand(t)]].gen;
      && Table(s') == (Table(s) - {Cand(t)})[MySlot(s, t) := g] && s'.gen == s.gen
      && s'.grants == s.grants + [Grant(t, s.threads[t].file, s.threads[t].idx, g)]
  {
    hide Named, Granted;
    assert ThreadTyped(s, s.threads[t]);
    var a := s.domRefs.ptr[Cand(t)];
    MoveNamed(s.domRefs.ptr, s.doms, Cand(t), MySlot(s, t));
    GrantedTable(s.(domRefs := R.Move(s.domRefs, Cand(t), MySlot(s, t))), t, a, AfterGet(s.threads[t]));
  }

  lemma InstalledSlots(s: State, s': State, t: nat, slot: DomHolder, g: nat)
    requires slot.Slot? && Table(s') == (Table(s) - {Cand(t)})[slot := g]
    ensures Slots(s') == Slots(s)[slot := g]
  {
    hide Named;
    var m := Table(s);
    assert OnlySlots(m - {Cand(t)}) == OnlySlots(m);
    SlotsUpdate(m - {Cand(t)}, slot, g);
  }

  lemma SlotsUpdate(m: map<DomHolder, nat>, slot: DomHolder, g: nat)
    requires slot.Slot?
    ensures OnlySlots(m[slot := g]) == OnlySlots(m)[slot := g]
  {
  }

  lemma CandNamed(s: State, t: nat)
    requires Cand(t) in s.domRefs.ptr && s.domRefs.ptr[Cand(t)] in s.doms
    ensures Cand(t) in Table(s) && Table(s)[Cand(t)] == s.doms[s.domRefs.ptr[Cand(t)]].gen
  {
  }

  lemma CandHeld(s: State, t: nat)
    requires Inv(s) && t < |s.threads| && HasCand(s.threads[t].pc)
    ensures Cand(t) in s.domRefs.ptr && s.domRefs.ptr[Cand(t)] in s.doms
    ensures s.doms[s.domRefs.ptr[Cand(t)]].gen < s.gen
    ensures forall h <- Table(s) :: Table(s)[h] == s.doms[s.domRefs.ptr[Cand(t)]].gen ==> h == Cand(t)
  {
    hide Spaces, OnlyOpen, BoRefs, JobRefs, CoresOk, Attached, Flights, PowerOk, History, GrantsOk, WellTyped;
  }

  lemma InstalledUnseen(s: State, t: nat)
    requires Inv(s) && Unseen(s) && t < |s.threads| && s.threads[t].pc.Install? && MySlot(s, t) !in s.domRefs.ptr
    requires Cand(t) in s.domRefs.ptr && s.domRefs.ptr[Cand(t)] in s.doms
    requires var s' := InstallStep(s, t); var g := s.doms[s.domRefs.ptr[Cand(t)]].gen;
      && Table(s') == (Table(s) - {Cand(t)})[MySlot(s, t) := g] && s'.gen == s.gen
      && s'.grants == s.grants + [Grant(t, s.threads[t].file, s.threads[t].idx, g)]
    ensures Unseen(InstallStep(s, t))
  {
    hide Inv, InstallStep;
    CandHeld(s, t);
  }

  // The spare domain of a caller that lost the race is held by nobody else, was never granted
  // to anyone, and is freed by this step.
  lemma LoserFreed(s: State, t: nat)
    requires Inv(s) && Unseen(s) && t < |s.threads| && s.threads[t].pc.Discard?
    ensures Cand(t) in s.domRefs.ptr && s.domRefs.ptr[Cand(t)] in s.doms
    ensures var a := s.domRefs.ptr[Cand(t)]; var s' := DiscardStep(s, t);
      && R.Holders(s.domRefs.ptr, a) == {Cand(t)}
      && (forall k | 0 <= k < |s.grants| :: s.grants[k].gen != s.doms[a].gen)
      && s'.doms == s.doms - {a} && Cand(t) !in s'.domRefs.ptr
  {
    hide Gens, Spaces, OnlyOpen, BoRefs, JobRefs, CoresOk, Attached, Flights, PowerOk, History, GrantsOk, WellTyped;
    CandHeld(s, t);
    var a := s.domRefs.ptr[Cand(t)];
    assert R.Holders(s.domRefs.ptr, a) == {Cand(t)};
    assert Cand(t) in Table(s);
  }

  lemma DiscardLinear(s: State, t: nat)
    requires Inv(s) && t < |s.threads| && s.threads[t].pc.Discard?
    ensures var s' := DiscardStep(s, t); Linear(s, s', None) && (Unseen(s) ==> Unseen(s'))
  {
    hide IoInv, CoresOk, Attached, Flights, PowerOk, History, WellTyped, DropDom, Named, Slots;
    PoolFacts(s);
    DropTable(s, Cand(t));
    CandSlots(s, DiscardStep(s, t), Cand(t), 0);
  }

  // ---- everything else is invisible to the pool, but for closing ----

  lemma SimpleInvisible(s: State, t: nat, ok: bool, arg: nat)
    requires WellTyped(s) && t < |s.threads|
    requires var pc := s.threads[t].pc; pc.Pages? || pc.MakeHandle? || pc.Finish? || pc.Done? || pc.UndoAlloc?
    ensures Invisible(s, AdvanceThread(s, t, ok, arg))
  {
    hide WellTyped, Invisible;
    SameTable(s, AdvanceThread(s, t, ok, arg));
  }

  lemma NodeInvisible(s: State, t: nat, ok: bool, arg: nat)
    requires WellTyped(s) && t < |s.threads|
    requires var pc := s.threads[t].pc; pc.Insert? || pc.MapIova? || pc.UndoMap? || pc.UndoInsert?
    ensures Invisible(s, AdvanceThread(s, t, ok, arg))
  {
    hide WellTyped, Named, UnmapBo, RemoveNode, SetSpace;
    var b := s.threads[t].bo;
    assert b < |s.bos| by { BoIndex(s, t); }
    SpaceTable(s, b);
    if HasSpace(s, b) {
      SetSpaceInvisible(Goto(s, t, MapIova), b, A.Insert(SpaceOf(s, b), b, arg, s.bos[b].size));
      if b in SpaceOf(s, b).nodes {
        SetSpaceInvisible(Goto(s, t, MakeHandle), b, A.Map(SpaceOf(s, b), b));
      }
    }
  }

  lemma MakeInvisible(s: State, t: nat, ok: bool, arg: nat)
    requires WellTyped(s) && t < |s.threads| && CreatePc(s.threads[t].pc)
    requires var pc := s.threads[t].pc; !pc.Lookup? && !pc.Create? && !pc.Install? && !pc.Discard? && !pc.UndoDomain?
    ensures Invisible(s, AdvanceThread(s, t, ok, arg))
  {
    hide WellTyped, Invisible, AdvanceThread;
    var pc := s.threads[t].pc;
    if pc.Insert? || pc.MapIova? || pc.UndoMap? || pc.UndoInsert? {
      NodeInvisible(s, t, ok, arg);
    } else {
      SimpleInvisible(s, t, ok, arg);
    }
  }

  lemma BoIndex(s: State, t: nat)
    requires WellTyped(s) && t < |s.threads|
    ensures s.threads[t].bo < |s.bos|
  {
    assert ThreadTyped(s, s.threads[t]);
  }

  lemma SetSpaceInvisible(s: State, b: nat, sp: A.Space)
    requires HasSpace(s, b)
    ensures Invisible(s, SetSpace(s, b, sp)) && SetSpace(s, b, sp).bos == s.bos
  {
    SpaceNamed(s, b, sp);
  }

  lemma UndoDomainInvisible(s: State, t: nat)
    requires WellTyped(s) && t < |s.threads| && R.Balanced(s.domRefs) && s.domRefs.kref.Keys == s.doms.Keys
    ensures Invisible(s, UndoDomainStep(s, t))
  {
    hide DropDom, R.Balanced, Named;
    DropTable(s, BoDom(s.threads[t].bo));
    NotNamed(s, BoDom(s.threads[t].bo));
  }

  lemma SubmitInvisible(s: State, t: nat, ok: bool, arg: nat)
    requires WellTyped(s) && t < |s.threads| && !CreatePc(s.threads[t].pc)
    requires R.Balanced(s.domRefs) && s.domRefs.kref.Keys == s.doms.Keys
    ensures Invisible(s, AdvanceThread(s, t, ok, arg))
  {
    hide WellTyped, DropJob, R.Balanced, Named;
    DropJobTable(s, Submitter(t));
  }

  lemma BoInvisible(s: State, b: nat, op: BoOp)
    requires BoEnabled(s, b, op) && R.Balanced(s.domRefs) && s.domRefs.kref.Keys == s.doms.Keys
    ensures Invisible(s, BoApply(s, b, op))
  {
    hide DropDom, UnmapBo, RemoveNode, R.Balanced, Named;
    DropTable(s, BoDom(b));
    NotNamed(s, BoDom(b));
    if op.BoUnmap? || op.BoRemove? {
      SpaceTable(s, b);
    }
  }

  lemma JobInvisible(s: State, j: nat, op: JobOp)
    requires WellTyped(s) && j < |s.jobs| && JobEnabled(s, j, op)
    requires R.Balanced(s.domRefs) && s.domRefs.kref.Keys == s.doms.Keys
    ensures Invisible(s, JobApply(s, j, op))
  {
    hide DropJob, R.Balanced, Named;
    DropJobTable(CleanBase(s, j), Sched(j));
  }

  lemma CoreInvisible(s: State, c: nat, op: CoreOp)
    requires WellTyped(s) && c < |s.cores| && CoreEnabled(s, c, op)
    ensures Invisible(s, CoreApply(s, c, op))
  {
    hide Invisible;
    CoreFrame(s, c, op);
    SameTable(s, CoreApply(s, c, op));
  }

  lemma SameTable(s: State, s': State)
    requires s'.domRefs == s.domRefs && s'.doms == s.doms && s'.grants == s.grants && s'.gen == s.gen
    ensures Invisible(s, s')
  {
  }

  lemma CoreFrame(s: State, c: nat, op: CoreOp)
    requires WellTyped(s) && c < |s.cores| && CoreEnabled(s, c, op)
    ensures var s' := CoreApply(s, c, op);
      s'.domRefs == s.domRefs && s'.doms == s.doms && s'.grants == s.grants && s'.gen == s.gen
  {
    assert |s.cores| == |s.mmus| && CoreTyped(|s.jobs|, s.cores[c]);
    hide WellTyped;
  }

  lemma CloseLinear(s: State, f: nat)
    requires Inv(s) && f < |s.files| && s.files[f].Draining?
    ensures var s' := CloseSlot(s, f, s.files[f].slot);
      Linear(s, s', EventOf(s, OnFile(f, CloseDomain))) && (Unseen(s) ==> Unseen(s'))
  {
    hide IoInv, CoresOk, Attached, Flights, PowerOk, History, WellTyped, DropDom, Named, Slots;
    PoolFacts(s);
    var i := s.files[f].slot;
    var s' := CloseSlot(s, f, i);
    var s1 := s.(files := s.files[f := if i + 1 < MAX_DOMAINS then Draining(i + 1) else Closed]);
    if Slot(f, i) in s.domRefs.ptr {
      var s2 := Raise(s1, s.doms[s.domRefs.ptr[Slot(f, i)]].space.nodes != map[], AllocatorNotEmpty);
      DropTable(s2, Slot(f, i));
      ClearedSlots(s, s', Slot(f, i));
    } else {
      SameSlots(s, s');
    }
  }

  lemma ClearedSlots(s: State, s': State, h: DomHolder)
    requires Table(s') == Table(s) - {h}
    ensures Slots(s') == Slots(s) - {h}
  {
    hide Named;
  }

  lemma AdvanceLinear(s: State, t: nat, ok: bool, arg: nat)
    requires Inv(s) && t < |s.threads| && CanAdvance(s, t, ok, arg)
    ensures var s' := AdvanceThread(s, t, ok, arg); Linear(s, s', CallEvent(s, t)) && (Unseen(s) ==> Unseen(s'))
  {
    hide Inv, WellTyped, Linear, Unseen, Invisible;
    Launching.InvTyped(s);
    PoolFacts(s);
    ThreadKind(s, t);
    match s.threads[t].pc {
      case Lookup => LookupLinear(s, t);
      case Create => CreateLinear(s, t, ok, arg);
      case Install => InstallLinear(s, t);
      case Discard => DiscardLinear(s, t);
      case UndoDomain =>
        UndoDomainInvisible(s, t);
        InvisibleLinear(s, AdvanceThread(s, t, ok, arg));
      case _ =>
        if CreatePc(s.threads[t].pc) {
          MakeInvisible(s, t, ok, arg);
        } else {
          SubmitInvisible(s, t, ok, arg);
        }
        InvisibleLinear(s, AdvanceThread(s, t, ok, arg));
    }
  }

  lemma InvisibleLinear(s: State, s': State)
    requires Invisible(s, s')
    ensures Linear(s, s', None) && (Unseen(s) ==> Unseen(s'))
  {
    hide Table, OnlySlots;
    assert Slots(s') == Slots(s);
  }

  lemma StepLinear(s: State, st: Step)
    requires Inv(s) && Enabled(s, st)
    ensures Linear(s, Apply(s, st), EventOf(s, st)) && (Unseen(s) ==> Unseen(Apply(s, st)))
  {
    hide Inv, WellTyped, Linear, Unseen, Invisible, CoreApply, CoreEnabled, JobApply, JobEnabled, BoApply, BoEnabled,
      AdvanceThread, CanAdvance, CloseSlot;
    Launching.InvTyped(s);
    PoolFacts(s);
    var s' := Apply(s, st);
    match st {
      case Advance(t, ok, arg) => AdvanceLinear(s, t, ok, arg);
      case OnFile(f, op) =>
        if op.CloseDomain? {
          CloseLinear(s, f);
        } else {
          SameTable(s, s');
          InvisibleLinear(s, s');
        }
      case OnBo(b, op) =>
        BoInvisible(s, b, op);
        InvisibleLinear(s, s');
      case OnJob(j, op) =>
        JobInvisible(s, j, op);
        InvisibleLinear(s, s');
      case OnCore(c, op) =>
        CoreInvisible(s, c, op);
        InvisibleLinear(s, s');
      case _ =>
        SameTable(s, s');
        InvisibleLinear(s, s');
    }
  }
}
