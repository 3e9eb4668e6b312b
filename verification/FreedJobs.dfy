/**
 Accesses to jobs: every one in every run is to live memory, but for one.
 */
module FreedJobs {
  import opened Options
  import opened Machine
  import opened Invariants
  import opened Runs
  import opened Jobs
  import Ledgers
  import R = Refs

  // The submitter has dropped its reference.
  predicate Released(th: Thread) {
    th.pc.Vunmap? || th.pc.PutTask? || th.pc.Done?
  }

  // A job that was pushed is freed exactly when the scheduler has cleaned it up and its
  // submitter is past rocket_job_put.
  lemma FreedExactly(s: State, j: nat)
    requires Reachable(s) && j < |s.jobs| && !s.jobs[j].st.Init?
    ensures s.jobs[j].submitter < |s.threads|
    ensures j !in s.jobRefs.kref <==> s.jobs[j].base.Clean? && Released(s.threads[s.jobs[j].submitter])
  {
    hide R.Balanced, DomHolders, DomLinks, Gens, Spaces, OnlyOpen, BoRefs, CoresOk, Attached, Flights, PowerOk, History,
      GrantsOk, WellTyped, Reachable;
    ReachableOwned(s);
    Ledgers.JobLedger(s, j);
    assert JobOk(j, s.jobs[j], s.threads, s.jobRefs);
    assert OwnedJob(j, s.jobs[j], s.threads);
    var t := s.jobs[j].submitter;
    assert SubmitOk(t, s.threads[t], s.jobs, s.jobRefs.ptr, s.domRefs.ptr);
    if u :| 0 <= u < |s.threads| && Submitter(u) in s.jobRefs.ptr && s.jobRefs.ptr[Submitter(u)] == j {
      assert JobHolderOk(Submitter(u), j, s.threads, s.jobs);
      assert SubmitOk(u, s.threads[u], s.jobs, s.jobRefs.ptr, s.domRefs.ptr);
    }
  }

  // The jobs whose memory the driver reads or writes in a step.
  ghost function Touches(s: State, st: Step): set<nat>
    requires WellTyped(s) && Enabled(s, st)
  {
    match st
    case Advance(t, ok, arg) => TouchedBy(s.threads[t])
    case Expire(t) => TouchedBy(s.threads[t])
    case OnJob(j, op) => {j}
    case OnCore(c, op) =>
      (match op
       case Power(fail) => {s.cores[c].run.job}
       case Section(attachErr) => {s.cores[c].run.job}
       case Unpower => {s.cores[c].run.job}
       case Fail => {s.cores[c].run.job}
       case Interrupt => if s.cores[c].flight.Some? then {s.cores[c].flight.value} else {}
       case TimedOut(j) => {j}
       case Count => {s.cores[c].reset.job}
       case _ => {})
    case _ => {}
  }

  // A submit uses its job from its initialisation to its put.
  function TouchedBy(th: Thread): set<nat> {
    if th.submit && th.job.Some? && HoldsJob(th.pc) then {th.job.value} else {}
  }

  ghost predicate CountsFreed(s: State, st: Step, j: nat) {
    && st.OnCore? && st.cop.Count?
    && j < |s.jobs| && s.jobs[j].submitter < |s.threads|
    && s.jobs[j].base.Clean? && Released(s.threads[s.jobs[j].submitter])
  }

  // In every run, an access to a job is to freed memory exactly if it is the timeout handler's
  // ++timeout_count, after the scheduler has cleaned the job up and its submitter has put it.
  lemma FreedAccess(s: State, st: Step, j: nat)
    requires Reachable(s) && Enabled(s, st) && j in Touches(s, st)
    ensures j !in s.jobRefs.kref <==> CountsFreed(s, st, j)
  {
    hide Inv, WellTyped, Reachable, Enabled, Touches;
    ReachableOwned(s);
    if st.OnCore? && st.cop.Count? {
      CountAccess(s, st, j);
    } else {
      OtherAccess(s, st, j);
    }
  }

  lemma CountAccess(s: State, st: Step, j: nat)
    requires Reachable(s) && Enabled(s, st) && j in Touches(s, st) && st.OnCore? && st.cop.Count?
    ensures j !in s.jobRefs.kref <==> CountsFreed(s, st, j)
  {
    hide IoInv, Attached, Flights, PowerOk, History, WellTyped, Reachable;
    ReachableOwned(s);
    assert CoreOk(st.c, s.cores[st.c], s.jobs);
    assert TimeoutsOk(j, s.jobs[j], s.cores);
    FreedExactly(s, j);
  }

  lemma OtherAccess(s: State, st: Step, j: nat)
    requires Reachable(s) && Enabled(s, st) && j in Touches(s, st) && !(st.OnCore? && st.cop.Count?)
    ensures j in s.jobRefs.kref
  {
    hide IoInv, Attached, Flights, PowerOk, History, WellTyped, Reachable;
    ReachableOwned(s);
    match st {
      case Advance(t, ok, arg) => HeldBySubmitter(s, t);
      case Expire(t) => HeldBySubmitter(s, t);
      case OnJob(k, op) =>
        assert CoreOk(s.jobs[j].core, s.cores[s.jobs[j].core], s.jobs);
        HeldByScheduler(s, j);
      case OnCore(c, op) =>
        assert CoreOk(c, s.cores[c], s.jobs);
        HeldByScheduler(s, j);
      case _ =>
    }
  }

  lemma HeldBySubmitter(s: State, t: nat)
    requires Inv(s) && t < |s.threads|
    ensures forall j <- TouchedBy(s.threads[t]) :: j in s.jobRefs.kref
  {
    hide DomHolders, DomLinks, Gens, Spaces, OnlyOpen, BoRefs, CoresOk, Attached, Flights, PowerOk, History, GrantsOk,
      WellTyped;
    if s.threads[t].submit {
      assert SubmitOk(t, s.threads[t], s.jobs, s.jobRefs.ptr, s.domRefs.ptr);
    }
  }

  lemma HeldByScheduler(s: State, j: nat)
    requires Inv(s) && j < |s.jobs| && (s.jobs[j].st.Queued? || s.jobs[j].st.Active? || Sched(j) in s.jobRefs.ptr)
    ensures j in s.jobRefs.kref
  {
    hide DomHolders, DomLinks, Gens, Spaces, OnlyOpen, BoRefs, CoresOk, Attached, Flights, PowerOk, History, GrantsOk,
      WellTyped;
    assert JobOk(j, s.jobs[j], s.threads, s.jobRefs);
    assert JobHolderOk(Sched(j), s.jobRefs.ptr[Sched(j)], s.threads, s.jobs);
  }

  // That access is what the machine records.
  lemma CountRecorded(s: State, c: nat)
    requires Reachable(s) && c < |s.cores| && CoreEnabled(s, c, Count)
    ensures var j := s.cores[c].reset.job;
      CoreApply(s, c, Count).stale
      == s.stale + if CountsFreed(s, OnCore(c, Count), j) then {TimeoutCount(j)} else {}
  {
    hide Inv, WellTyped, Reachable;
    FreedAccess(s, OnCore(c, Count), s.cores[c].reset.job);
  }
}
