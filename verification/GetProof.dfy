/**
 rocket_iommu_domain_get and rocket_iommu_domain_put keep the invariant.
 */
module GetProof {
  import opened Options
  import opened Machine
  import opened Invariants
  import opened IoProof
  import R = Refs
  import A = AddressSpace

  // A lookup hit, or losing the install race.
  ghost predicate GrantReady(s: State, t: nat, pc: Pc) {
    && t < |s.threads| && MySlot(s, t) in s.domRefs.ptr
    && ((s.threads[t].pc.Lookup? && pc == AfterGet(s.threads[t])) || (s.threads[t].pc.Install? && pc.Discard?))
  }

  // The thread's target variable is still unset.
  lemma TargetFree(s: State, t: nat)
    requires Inv(s) && t < |s.threads|
    requires s.threads[t].pc.Lookup? || s.threads[t].pc.Install?
    ensures s.threads[t].submit ==> s.threads[t].job.Some? && s.threads[t].job.value in s.jobRefs.kref
    ensures Target(s, t) !in s.domRefs.ptr
    ensures InFile(s.files, s.threads[t].file)
    ensures !s.threads[t].submit ==> s.bos[s.threads[t].bo].st.Fresh?
    ensures MySlot(s, t) in s.domRefs.ptr ==>
      var a := s.domRefs.ptr[MySlot(s, t)];
      a in s.domRefs.kref && a in s.doms && s.doms[a].file == s.threads[t].file && s.doms[a].idx == s.threads[t].idx
  {
    hide DomLinks, Gens, Spaces, BoRefs, JobRefs, CoresOk, Attached, Flights, PowerOk, History, GrantsOk;
    SelfOk(s, t);
    assert Target(s, t) in s.domRefs.ptr ==>
      DomHolderOk(Target(s, t), s.files, s.threads, s.bos, s.jobs, s.jobRefs.kref);
    if MySlot(s, t) in s.domRefs.ptr {
      LinkAt(s, MySlot(s, t));
    }
  }

  lemma LinkAt(s: State, h: DomHolder)
    requires Inv(s) && h in s.domRefs.ptr
    ensures LinkOk(h, s.domRefs.ptr[h], s.domRefs.ptr, s.doms, s.files, s.threads, s.bos, s.jobs)
    ensures s.domRefs.ptr[h] in s.domRefs.kref
  {
    hide Gens, Spaces, OnlyOpen, BoRefs, JobRefs, CoresOk, Attached, Flights, PowerOk, History, GrantsOk, WellTyped;
  }

  lemma GrantHolders(s: State, t: nat, pc: Pc)
    requires Inv(s) && GrantReady(s, t, pc) && (s.threads[t].submit ==> s.threads[t].job.Some?)
    ensures var s' := Granted(s, t, s.domRefs.ptr[MySlot(s, t)], pc);
      DomHolders(s'.domRefs.ptr, s'.files, s'.threads, s'.bos, s'.jobs, s'.jobRefs.kref)
  {
    hide R.Balanced, DomLinks, Gens, Spaces, OnlyOpen, BoRefs, JobRefs, CoresOk, Attached, Flights, PowerOk, History,
      GrantsOk;
    TargetFree(s, t);
  }

  lemma GrantLinks(s: State, t: nat, pc: Pc)
    requires Inv(s) && GrantReady(s, t, pc) && (s.threads[t].submit ==> s.threads[t].job.Some?)
    ensures var s' := Granted(s, t, s.domRefs.ptr[MySlot(s, t)], pc);
      DomLinks(s'.domRefs.ptr, s'.doms, s'.files, s'.threads, s'.bos, s'.jobs)
  {
    hide R.Balanced, DomHolders, Gens, Spaces, OnlyOpen, BoRefs, JobRefs, CoresOk, Attached, Flights, PowerOk, History,
      GrantsOk;
    TargetFree(s, t);
    SelfOk(s, t);
  }

  lemma GrantSpaces(s: State, t: nat, pc: Pc)
    requires Inv(s) && GrantReady(s, t, pc) && (s.threads[t].submit ==> s.threads[t].job.Some?)
    ensures var s' := Granted(s, t, s.domRefs.ptr[MySlot(s, t)], pc);
      Spaces(s'.lo, s'.hi, s'.doms, s'.domRefs.ptr, s'.bos)
  {
    hide R.Balanced, DomHolders, DomLinks, Gens, OnlyOpen, BoRefs, JobRefs, CoresOk, Attached, Flights, PowerOk,
      History, GrantsOk, Spaces;
    TargetFree(s, t);
    var s' := Granted(s, t, s.domRefs.ptr[MySlot(s, t)], pc);
    SpacesGrow(s.lo, s.hi, s.doms, s.domRefs.ptr, s.bos, s'.domRefs.ptr, s'.bos);
  }

  lemma GrantTypes(s: State, t: nat, pc: Pc)
    requires Inv(s) && GrantReady(s, t, pc) && (s.threads[t].submit ==> s.threads[t].job.Some?)
    ensures var s' := Granted(s, t, s.domRefs.ptr[MySlot(s, t)], pc);
      && OnlyOpen(s'.files, s'.threads, s'.bos, s'.jobs)
      && WellTyped(s')
  {
    hide R.Balanced, DomHolders, DomLinks, Gens, Spaces, BoRefs, JobRefs, CoresOk, Attached, Flights, PowerOk, History,
      GrantsOk;
    TargetFree(s, t);
  }

  lemma GrantBoRefs(s: State, t: nat, pc: Pc)
    requires Inv(s) && GrantReady(s, t, pc) && (s.threads[t].submit ==> s.threads[t].job.Some?)
    ensures var s' := Granted(s, t, s.domRefs.ptr[MySlot(s, t)], pc); BoRefs(s'.threads, s'.bos, s'.boRefs)
  {
    hide R.Balanced, DomHolders, DomLinks, Gens, Spaces, OnlyOpen, BoRefs, JobRefs, CoresOk, Attached, Flights, PowerOk,
      History, GrantsOk;
    TargetFree(s, t);
    SelfOk(s, t);
    var th := s.threads[t].(pc := pc);
    if th.submit {
      BoRefsThread(s.threads, s.bos, s.boRefs, t, th);
    } else {
      BoRefsMaker(s.threads, s.bos, s.boRefs, t, th, s.bos[th.bo].(st := HasDomain));
    }
  }

  lemma GrantJobRefs(s: State, t: nat, pc: Pc)
    requires Inv(s) && GrantReady(s, t, pc) && (s.threads[t].submit ==> s.threads[t].job.Some?)
    ensures var s' := Granted(s, t, s.domRefs.ptr[MySlot(s, t)], pc);
      JobRefs(s'.threads, s'.jobs, s'.jobRefs, s'.domRefs.ptr, s'.maps)
  {
    hide R.Balanced, DomHolders, DomLinks, Gens, Spaces, OnlyOpen, BoRefs, CoresOk, Attached, Flights, PowerOk, History,
      GrantsOk, WellTyped;
    TargetFree(s, t);
  }

  lemma GrantGrants(s: State, t: nat, pc: Pc)
    requires Inv(s) && GrantReady(s, t, pc) && (s.threads[t].submit ==> s.threads[t].job.Some?)
    ensures var s' := Granted(s, t, s.domRefs.ptr[MySlot(s, t)], pc);
      && R.Balanced(s'.domRefs)
      && GrantsOk(s'.grants, s'.files, s'.domRefs.ptr, s'.doms)
      && Attached(s'.mmus, s'.doms, s'.domRefs.ptr, s'.files)
      && Flights(s'.cores, s'.mmus, s'.domRefs.ptr)
  {
    hide R.Balanced, DomHolders, DomLinks, Gens, Spaces, OnlyOpen, BoRefs, JobRefs, PowerOk, History;
    TargetFree(s, t);
    var s' := Granted(s, t, s.domRefs.ptr[MySlot(s, t)], pc);
    R.GetBalanced(s.domRefs, Target(s, t), s.domRefs.ptr[MySlot(s, t)]);
    AttachedFrame(s, s');
    FlightsFrame(s, s');
  }

  lemma GrantKeeps(s: State, t: nat, pc: Pc)
    requires Inv(s) && GrantReady(s, t, pc) && (s.threads[t].submit ==> s.threads[t].job.Some?)
    ensures Inv(Granted(s, t, s.domRefs.ptr[MySlot(s, t)], pc))
  {
    hide R.Balanced, DomHolders, DomLinks, Gens, Spaces, OnlyOpen, BoRefs, JobRefs, CoresOk, Attached, Flights, PowerOk,
      History, GrantsOk, WellTyped;
    TargetFree(s, t);
    GrantHolders(s, t, pc);
    GrantLinks(s, t, pc);
    GrantSpaces(s, t, pc);
    GrantTypes(s, t, pc);
    GrantBoRefs(s, t, pc);
    GrantJobRefs(s, t, pc);
    GrantGrants(s, t, pc);
  }

  // ---- rocket_iommu_domain_create ----

  ghost predicate CreateReady(s: State, t: nat, a: nat) {
    t < |s.threads| && s.threads[t].pc.Create? && a !in s.doms
  }

  lemma CreateHolders(s: State, t: nat, a: nat)
    requires Inv(s) && CreateReady(s, t, a)
    ensures Cand(t) !in s.domRefs.ptr && a !in s.domRefs.kref
    ensures var s' := CreateStep(s, t, true, a);
      && DomHolders(s'.domRefs.ptr, s'.files, s'.threads, s'.bos, s'.jobs, s'.jobRefs.kref)
      && OnlyOpen(s'.files, s'.threads, s'.bos, s'.jobs) && WellTyped(s')
  {
    hide R.Balanced, DomLinks, Gens, Spaces, BoRefs, JobRefs, CoresOk, Attached, Flights, PowerOk, History, GrantsOk;
    assert Cand(t) in s.domRefs.ptr ==>
      DomHolderOk(Cand(t), s.files, s.threads, s.bos, s.jobs, s.jobRefs.kref);
  }

  lemma CreateLinks(s: State, t: nat, a: nat)
    requires Inv(s) && CreateReady(s, t, a)
    ensures var s' := CreateStep(s, t, true, a);
      DomLinks(s'.domRefs.ptr, s'.doms, s'.files, s'.threads, s'.bos, s'.jobs)
  {
    hide R.Balanced, DomHolders, Gens, Spaces, OnlyOpen, BoRefs, JobRefs, CoresOk, Attached, Flights, PowerOk, History,
      GrantsOk, WellTyped;
    CreateHolders(s, t, a);
    var s' := CreateStep(s, t, true, a);
    forall h <- s'.domRefs.ptr
      ensures LinkOk(h, s'.domRefs.ptr[h], s'.domRefs.ptr, s'.doms, s'.files, s'.threads, s'.bos, s'.jobs)
    {
      if h != Cand(t) {
        assert LinkOk(h, s.domRefs.ptr[h], s.domRefs.ptr, s.doms, s.files, s.threads, s.bos, s.jobs);
      }
    }
  }

  lemma CreateSpaces(s: State, t: nat, a: nat)
    requires Inv(s) && CreateReady(s, t, a)
    ensures var s' := CreateStep(s, t, true, a);
      Spaces(s'.lo, s'.hi, s'.doms, s'.domRefs.ptr, s'.bos)
  {
    hide R.Balanced, DomHolders, DomLinks, Gens, OnlyOpen, BoRefs, JobRefs, CoresOk, Attached, Flights, PowerOk,
      History, GrantsOk, Spaces;
    CreateHolders(s, t, a);
    var s' := CreateStep(s, t, true, a);
    SpacesAdd(s.lo, s.hi, s.doms, s.domRefs.ptr, s.bos, s'.doms, s'.domRefs.ptr);
  }

  lemma CreateFrames(s: State, t: nat, a: nat)
    requires Inv(s) && CreateReady(s, t, a)
    ensures var s' := CreateStep(s, t, true, a);
      && Gens(s'.doms, s'.gen)
      && Attached(s'.mmus, s'.doms, s'.domRefs.ptr, s'.files)
      && Flights(s'.cores, s'.mmus, s'.domRefs.ptr)
  {
    hide R.Balanced, DomHolders, DomLinks, Spaces, OnlyOpen, BoRefs, JobRefs, CoresOk, Attached, Flights, PowerOk,
      History, GrantsOk, WellTyped;
    CreateHolders(s, t, a);
    AttachedFrame(s, CreateStep(s, t, true, a));
    FlightsFrame(s, CreateStep(s, t, true, a));
  }

  lemma CreateRefs(s: State, t: nat, a: nat)
    requires Inv(s) && CreateReady(s, t, a)
    ensures var s' := CreateStep(s, t, true, a);
      && R.Balanced(s'.domRefs)
      && BoRefs(s'.threads, s'.bos, s'.boRefs)
      && JobRefs(s'.threads, s'.jobs, s'.jobRefs, s'.domRefs.ptr, s'.maps)
      && GrantsOk(s'.grants, s'.files, s'.domRefs.ptr, s'.doms)
  {
    hide R.Balanced, DomHolders, DomLinks, Gens, Spaces, OnlyOpen, BoRefs, CoresOk, Attached, Flights, PowerOk,
      History, WellTyped;
    CreateHolders(s, t, a);
    SelfOk(s, t);
    R.NewBalanced(s.domRefs, Cand(t), a);
    var s' := CreateStep(s, t, true, a);
    BoRefsThread(s.threads, s.bos, s.boRefs, t, s'.threads[t]);
    JobRefsPtr(s, s'.domRefs.ptr);
    JobRefsThread(s.threads, s.jobs, s.jobRefs, s'.domRefs.ptr, s.maps, t, s'.threads[t]);
  }

  // Job bookkeeping looks at the domain pointers only to see which jobs have one.
  lemma JobRefsPtr(s: State, ptr: map<DomHolder, nat>)
    requires JobRefs(s.threads, s.jobs, s.jobRefs, s.domRefs.ptr, s.maps)
    requires forall j: nat :: JobDom(j) in ptr <==> JobDom(j) in s.domRefs.ptr
    ensures JobRefs(s.threads, s.jobs, s.jobRefs, ptr, s.maps)
  {
    forall t | 0 <= t < |s.threads| && s.threads[t].submit
      ensures SubmitOk(t, s.threads[t], s.jobs, s.jobRefs.ptr, ptr)
    {
      assert SubmitOk(t, s.threads[t], s.jobs, s.jobRefs.ptr, s.domRefs.ptr);
    }
  }

  lemma CreateKeeps(s: State, t: nat, a: nat)
    requires Inv(s) && CreateReady(s, t, a)
    ensures Inv(CreateStep(s, t, true, a))
  {
    hide R.Balanced, DomHolders, DomLinks, Gens, Spaces, OnlyOpen, BoRefs, JobRefs, CoresOk, Attached, Flights, PowerOk,
      History, GrantsOk, WellTyped;
    CreateHolders(s, t, a);
    CreateLinks(s, t, a);
    CreateSpaces(s, t, a);
    CreateFrames(s, t, a);
    CreateRefs(s, t, a);
  }

  // ---- installing the candidate ----

  ghost predicate InstallReady(s: State, t: nat) {
    t < |s.threads| && s.threads[t].pc.Install? && MySlot(s, t) !in s.domRefs.ptr
  }

  // The winner's state, spelled out.
  lemma InstallShape(s: State, t: nat)
    requires Inv(s) && InstallReady(s, t)
    ensures s.threads[t].submit ==> s.threads[t].job.Some? && s.threads[t].job.value in s.jobRefs.kref
    ensures Target(s, t) !in s.domRefs.ptr && Cand(t) in s.domRefs.ptr && InFile(s.files, s.threads[t].file)
    ensures !s.threads[t].submit ==> s.bos[s.threads[t].bo].st.Fresh?
    ensures LinkOk(Cand(t), s.domRefs.ptr[Cand(t)], s.domRefs.ptr, s.doms, s.files, s.threads, s.bos, s.jobs)
    ensures var s' := InstallStep(s, t);
      var th := s.threads[t];
      var a := s.domRefs.ptr[Cand(t)];
      && R.Balanced(s'.domRefs)
      && s'.domRefs.ptr == (s.domRefs.ptr - {Cand(t)})[MySlot(s, t) := a][Target(s, t) := a]
      && s'.domRefs.kref.Keys == s.domRefs.kref.Keys
      && s' == s.(domRefs := s'.domRefs, threads := s.threads[t := th.(pc := AfterGet(th))],
                  grants := s.grants + [Grant(t, th.file, th.idx, s.doms[a].gen)],
                  bos := if th.submit then s.bos else s.bos[th.bo := s.bos[th.bo].(st := HasDomain)])
  {
    hide R.Balanced, DomLinks, Gens, Spaces, OnlyOpen, BoRefs, JobRefs, CoresOk, Attached, Flights, PowerOk, History,
      GrantsOk;
    TargetFree(s, t);
    LinkAt(s, Cand(t));
    R.MoveBalanced(s.domRefs, Cand(t), MySlot(s, t));
    R.GetBalanced(R.Move(s.domRefs, Cand(t), MySlot(s, t)), Target(s, t), s.domRefs.ptr[Cand(t)]);
  }

  lemma InstallHolders(s: State, t: nat)
    requires Inv(s) && InstallReady(s, t)
    ensures var s' := InstallStep(s, t);
      DomHolders(s'.domRefs.ptr, s'.files, s'.threads, s'.bos, s'.jobs, s'.jobRefs.kref)
  {
    hide R.Balanced, DomLinks, Gens, Spaces, BoRefs, JobRefs, CoresOk, Attached, Flights, PowerOk, History, GrantsOk,
      OnlyOpen, InstallStep;
    InstallShape(s, t);
  }

  lemma InstallIds(s: State, t: nat)
    requires Inv(s) && InstallReady(s, t)
    ensures var s' := InstallStep(s, t); WellTyped(s') && OnlyOpen(s'.files, s'.threads, s'.bos, s'.jobs)
  {
    hide R.Balanced, DomHolders, DomLinks, Gens, Spaces, BoRefs, JobRefs, CoresOk, Attached, Flights, PowerOk, History,
      GrantsOk, InstallStep;
    InstallShape(s, t);
  }

  lemma InstallLinks(s: State, t: nat)
    requires Inv(s) && InstallReady(s, t)
    ensures var s' := InstallStep(s, t); DomLinks(s'.domRefs.ptr, s'.doms, s'.files, s'.threads, s'.bos, s'.jobs)
  {
    hide R.Balanced, DomHolders, Gens, Spaces, OnlyOpen, BoRefs, JobRefs, CoresOk, Attached, Flights, PowerOk, History,
      GrantsOk, WellTyped, InstallStep;
    SelfOk(s, t);
    InstallShape(s, t);
    var s' := InstallStep(s, t);
    forall h <- s'.domRefs.ptr
      ensures LinkOk(h, s'.domRefs.ptr[h], s'.domRefs.ptr, s'.doms, s'.files, s'.threads, s'.bos, s'.jobs)
    {
      if h in s.domRefs.ptr {
        assert LinkOk(h, s.domRefs.ptr[h], s.domRefs.ptr, s.doms, s.files, s.threads, s.bos, s.jobs);
      }
    }
  }

  lemma InstallSpaces(s: State, t: nat)
    requires Inv(s) && InstallReady(s, t)
    ensures var s' := InstallStep(s, t); Spaces(s'.lo, s'.hi, s'.doms, s'.domRefs.ptr, s'.bos)
  {
    hide R.Balanced, DomHolders, DomLinks, Gens, OnlyOpen, BoRefs, JobRefs, CoresOk, Attached, Flights, PowerOk,
      History, GrantsOk, Spaces, InstallStep, LinkOk;
    SelfOk(s, t);
    InstallShape(s, t);
    var s' := InstallStep(s, t);
    SpacesGrow(s.lo, s.hi, s.doms, s.domRefs.ptr, s.bos, s'.domRefs.ptr, s'.bos);
  }

  lemma InstallBoRefs(s: State, t: nat)
    requires Inv(s) && InstallReady(s, t)
    ensures var s' := InstallStep(s, t); BoRefs(s'.threads, s'.bos, s'.boRefs)
  {
    hide R.Balanced, DomHolders, DomLinks, Gens, Spaces, OnlyOpen, BoRefs, JobRefs, CoresOk, Attached, Flights, PowerOk,
      History, GrantsOk, InstallStep, LinkOk, WellTyped;
    InstallShape(s, t);
    SelfOk(s, t);
    var th := s.threads[t].(pc := AfterGet(s.threads[t]));
    if th.submit {
      BoRefsThread(s.threads, s.bos, s.boRefs, t, th);
    } else {
      BoRefsMaker(s.threads, s.bos, s.boRefs, t, th, s.bos[th.bo].(st := HasDomain));
    }
  }

  lemma InstallJobRefs(s: State, t: nat)
    requires Inv(s) && InstallReady(s, t)
    ensures var s' := InstallStep(s, t); JobRefs(s'.threads, s'.jobs, s'.jobRefs, s'.domRefs.ptr, s'.maps)
  {
    hide R.Balanced, DomHolders, DomLinks, Gens, Spaces, OnlyOpen, BoRefs, CoresOk, Attached, Flights, PowerOk,
      History, GrantsOk, InstallStep, LinkOk, WellTyped;
    InstallShape(s, t);
    SelfOk(s, t);
  }

  lemma InstallFrames(s: State, t: nat)
    requires Inv(s) && InstallReady(s, t)
    ensures var s' := InstallStep(s, t);
      && GrantsOk(s'.grants, s'.files, s'.domRefs.ptr, s'.doms)
      && Attached(s'.mmus, s'.doms, s'.domRefs.ptr, s'.files)
      && Flights(s'.cores, s'.mmus, s'.domRefs.ptr)
  {
    hide R.Balanced, DomHolders, DomLinks, Gens, Spaces, OnlyOpen, BoRefs, JobRefs, CoresOk, Attached, Flights, PowerOk,
      History, WellTyped, InstallStep;
    InstallShape(s, t);
    AttachedFrame(s, InstallStep(s, t));
    FlightsFrame(s, InstallStep(s, t));
  }

  lemma InstallKeeps(s: State, t: nat)
    requires Inv(s) && t < |s.threads| && s.threads[t].pc.Install?
    ensures Inv(InstallStep(s, t))
  {
    hide R.Balanced, DomHolders, DomLinks, Gens, Spaces, OnlyOpen, BoRefs, JobRefs, CoresOk, Attached, Flights, PowerOk,
      History, GrantsOk, WellTyped;
    if MySlot(s, t) in s.domRefs.ptr {
      TargetFree(s, t);
      GrantKeeps(s, t, Discard);
    } else {
      InstallShape(s, t);
      InstallHolders(s, t);
      InstallIds(s, t);
      InstallLinks(s, t);
      InstallSpaces(s, t);
      InstallBoRefs(s, t);
      InstallJobRefs(s, t);
      InstallFrames(s, t);
    }
  }

  lemma LookupKeeps(s: State, t: nat)
    requires Inv(s) && t < |s.threads| && s.threads[t].pc.Lookup?
    ensures Inv(LookupStep(s, t))
  {
    hide IoInv, CoresOk, Attached, Flights, PowerOk, History, WellTyped;
    if MySlot(s, t) in s.domRefs.ptr {
      TargetFree(s, t);
      GrantKeeps(s, t, AfterGet(s.threads[t]));
    } else {
      GotoKeeps(s, t, Create);
    }
  }

  // ---- rocket_iommu_domain_put ----

  // The domain pointer h is gone; the domain too if h was its last holder.
  ghost predicate Dropped(s: State, s': State, h: DomHolder) {
    && s' == s.(domRefs := s'.domRefs, doms := s'.doms)
    && R.Balanced(s'.domRefs) && s'.domRefs.kref.Keys == s'.doms.Keys
    && s'.domRefs.ptr == s.domRefs.ptr - {h}
    && (forall a <- s'.doms :: a in s.doms && s'.doms[a] == s.doms[a])
    && (forall g <- s'.domRefs.ptr :: s'.domRefs.ptr[g] in s'.doms)
  }

  // No core's cache names the domain that h is about to give up as its last holder.
  ghost predicate Unattached(s: State, h: DomHolder) {
    h in s.domRefs.ptr && forall c | 0 <= c < |s.mmus| :: s.mmus[c].attached != Some(s.domRefs.ptr[h])
  }

  // A put through anything but a pool slot, or through a slot no core is attached to,
  // frees the domain only when nothing refers to it and never under a core.
  lemma DropDomOk(s: State, h: DomHolder)
    requires R.Balanced(s.domRefs) && s.domRefs.kref.Keys == s.doms.Keys && h in s.domRefs.ptr
    requires Gens(s.doms, s.gen) && Attached(s.mmus, s.doms, s.domRefs.ptr, s.files)
    requires h.Slot? ==> Unattached(s, h)
    ensures Dropped(s, DropDom(s, h), h)
  {
    R.PutBalanced(s.domRefs, h);
    var a := s.domRefs.ptr[h];
    if R.IsLast(s.domRefs, h) {
      forall c | 0 <= c < |s.mmus| ensures s.mmus[c].hw != Some(s.doms[a].gen) {
        assert AttachOk(c, s.mmus[c], s.doms, s.domRefs.ptr, s.files);
      }
      assert DropDom(s, h).faults == s.faults;
    }
  }

  lemma DroppedLinks(s: State, s': State, h: DomHolder)
    requires Dropped(s, s', h) && DomLinks(s.domRefs.ptr, s.doms, s.files, s.threads, s.bos, s.jobs)
    requires h.Slot? ==> h.f >= |s.files| || !Pooled(s.files[h.f])
    ensures DomLinks(s'.domRefs.ptr, s'.doms, s.files, s.threads, s.bos, s.jobs)
  {
    hide R.Balanced;
    forall g <- s'.domRefs.ptr
      ensures LinkOk(g, s'.domRefs.ptr[g], s'.domRefs.ptr, s'.doms, s.files, s.threads, s.bos, s.jobs)
    {
      assert LinkOk(g, s.domRefs.ptr[g], s.domRefs.ptr, s.doms, s.files, s.threads, s.bos, s.jobs);
    }
  }

  lemma DroppedSpaces(s: State, s': State, h: DomHolder)
    requires Dropped(s, s', h) && Spaces(s.lo, s.hi, s.doms, s.domRefs.ptr, s.bos)
    requires h.BoDom? ==> h.b < |s.bos| && s.bos[h.b].st.HasDomain?
    ensures Spaces(s.lo, s.hi, s'.doms, s'.domRefs.ptr, s.bos)
  {
    hide R.Balanced, A.Ok;
  }

  lemma DroppedRest(s: State, s': State, h: DomHolder)
    requires Dropped(s, s', h) && Gens(s.doms, s.gen) && GrantsOk(s.grants, s.files, s.domRefs.ptr, s.doms)
    requires Attached(s.mmus, s.doms, s.domRefs.ptr, s.files) && (h.Slot? ==> Unattached(s, h))
    requires h.Slot? ==> h.f >= |s.files| || !Pooled(s.files[h.f])
    ensures Gens(s'.doms, s.gen) && GrantsOk(s.grants, s.files, s'.domRefs.ptr, s'.doms)
    ensures Attached(s.mmus, s'.doms, s'.domRefs.ptr, s.files)
  {
    hide R.Balanced;
    forall c | 0 <= c < |s.mmus| ensures AttachOk(c, s.mmus[c], s'.doms, s'.domRefs.ptr, s.files) {
      assert AttachOk(c, s.mmus[c], s.doms, s.domRefs.ptr, s.files);
      if s.mmus[c].attached.Some? {
        var a := s.mmus[c].attached.value;
        assert Slot(s.doms[a].file, s.doms[a].idx) in s'.domRefs.ptr;
      }
    }
  }

  lemma DroppedTyped(s: State, s': State, h: DomHolder)
    requires WellTyped(s) && Dropped(s, s', h)
    ensures WellTyped(s')
  {
    hide R.Balanced;
  }

  lemma DroppedFlights(s: State, s': State, h: DomHolder)
    requires Dropped(s, s', h) && Flights(s.cores, s.mmus, s.domRefs.ptr) && CoresOk(s.cores, s.jobs)
    requires h.JobDom? ==> h.j < |s.jobs| ==> !s.jobs[h.j].st.Active?
    ensures Flights(s.cores, s.mmus, s'.domRefs.ptr)
  {
    hide R.Balanced, CoresOk;
    FlightsFrame(s, s');
  }

  // The loser of the install race discards its spare domain.
  lemma DiscardKeeps(s: State, t: nat)
    requires Inv(s) && t < |s.threads| && s.threads[t].pc.Discard?
    ensures Inv(DiscardStep(s, t))
  {
    hide R.Balanced, DomHolders, DomLinks, Gens, Spaces, OnlyOpen, BoRefs, JobRefs, CoresOk, Attached, Flights, PowerOk,
      History, GrantsOk, WellTyped;
    DiscardHolders(s, t);
    var s1 := DropDom(s, Cand(t));
    DropDomOk(s, Cand(t));
    DroppedLinks(s, s1, Cand(t));
    DroppedSpaces(s, s1, Cand(t));
    DroppedRest(s, s1, Cand(t));
    DroppedFlights(s, s1, Cand(t));
    DiscardRefs(s, t, s1);
    DiscardThread(s, t, s1);
  }

  lemma DiscardHolders(s: State, t: nat)
    requires Inv(s) && t < |s.threads| && s.threads[t].pc.Discard?
    ensures Cand(t) in s.domRefs.ptr
    ensures var threads := s.threads[t := s.threads[t].(pc := AfterGet(s.threads[t]))];
      && DomHolders(s.domRefs.ptr - {Cand(t)}, s.files, threads, s.bos, s.jobs, s.jobRefs.kref)
      && OnlyOpen(s.files, threads, s.bos, s.jobs)
  {
    hide R.Balanced, DomLinks, Gens, Spaces, BoRefs, JobRefs, CoresOk, Attached, Flights, PowerOk, History, GrantsOk,
      WellTyped;
  }

  lemma DiscardThread(s: State, t: nat, s1: State)
    requires Inv(s) && t < |s.threads| && s.threads[t].pc.Discard? && Dropped(s, s1, Cand(t))
    requires DomLinks(s1.domRefs.ptr, s1.doms, s1.files, s1.threads, s1.bos, s1.jobs)
    ensures var s' := Goto(s1, t, AfterGet(s.threads[t]));
      && DomLinks(s'.domRefs.ptr, s'.doms, s'.files, s'.threads, s'.bos, s'.jobs)
      && WellTyped(s')
  {
    hide R.Balanced, DomHolders, Gens, Spaces, OnlyOpen, BoRefs, JobRefs, CoresOk, Attached, Flights, PowerOk, History,
      GrantsOk;
    SelfOk(s, t);
  }

  lemma DiscardRefs(s: State, t: nat, s1: State)
    requires Inv(s) && t < |s.threads| && s.threads[t].pc.Discard? && Dropped(s, s1, Cand(t))
    ensures var s' := Goto(s1, t, AfterGet(s.threads[t]));
      && BoRefs(s'.threads, s'.bos, s'.boRefs)
      && JobRefs(s'.threads, s'.jobs, s'.jobRefs, s'.domRefs.ptr, s'.maps)
  {
    hide R.Balanced, DomHolders, DomLinks, Gens, Spaces, OnlyOpen, BoRefs, JobRefs, CoresOk, Attached, Flights, PowerOk,
      History, GrantsOk;
    SelfOk(s, t);
    var th := s.threads[t].(pc := AfterGet(s.threads[t]));
    BoRefsThread(s.threads, s.bos, s.boRefs, t, th);
    JobRefsPtr(s, s1.domRefs.ptr);
    JobRefsThread(s.threads, s.jobs, s.jobRefs, s1.domRefs.ptr, s.maps, t, th);
  }
}
