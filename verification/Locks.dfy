/**
 Lock order.  Each driver entry point is the script of the locks it takes and drops, the moments
 it touches a core's IOMMU group, and its accesses to shared fields; any number of threads run
 such scripts.  The imperative code of Power, Client and Driver records the same actions as it
 goes and is proved to record exactly these scripts.
 */
module Locks {
  import opened Options

  // Worker is the exclusion between a core's run worker and its timeout handler, which
  // drm_sched_stop waits for; the others are the driver's own locks.
  datatype Lock =
    | Worker(core: nat)
    | JobLock(core: nat)
    | PmLock
    | FenceLock(core: nat)
    | DomainsLock(file: nat)
    | MmLock(domain: nat)
    | SchedLock

  // Fields shared between threads: in_flight_job and attached_domain of a core, the domains[]
  // slots of a file, the drm_mm nodes of a domain, pm_refcount.
  datatype Resource =
    | InFlight(core: nat)
    | Attached(core: nat)
    | Slots(file: nat)
    | Nodes(domain: nat)
    | PmRefs

  // The lock that protects a field.
  function Guard(r: Resource): Lock {
    match r
    case InFlight(core) => JobLock(core)
    case Attached(core) => JobLock(core)
    case Slots(file) => DomainsLock(file)
    case Nodes(domain) => MmLock(domain)
    case PmRefs => PmLock
  }

  // Touch is iommu_attach_group or iommu_detach_group on that core's group; Use is a statement
  // that reads or writes the field.
  datatype Action = Take(lock: Lock) | Free(lock: Lock) | Touch(core: nat) | Use(resource: Resource)

  // One call, with the outcomes of its branches.
  datatype Call =
      // rocket_job_run; held: another domain is attached and is detached first
    | Run(core: nat, empty: bool, powered: bool, held: bool, switch: bool, refused: bool)
      // rocket_job_handle_irq
    | Irq(core: nat, busy: bool, done: bool)
      // rocket_job_timedout, rocket_reset
    | Reset(core: nat, inFlight: bool, attached: bool)
      // rocket_iommu_domain_get; second: the slot was empty and a candidate created
    | DomainGet(file: nat, second: bool, lost: bool)
      // rkopnu_ioctl_mem_create
    | MemCreate(file: nat, second: bool, lost: bool, domain: nat, inserts: bool, undoes: bool)
      // rocket_gem_bo_free
    | BoFree(domain: nat)
      // rocket_job_push
    | JobPush
      // rocket_job_close, one core; the slots looked at, and whether the last one matched
    | CloseCore(core: nat, file: nat, filled: seq<bool>, mine: bool)
      // rocket_iommu_domains_close, slot by slot
    | DomainsClose(file: nat, domains: seq<Option<nat>>)

  function Guarded(l: Lock, body: seq<Action>): seq<Action> {
    [Take(l)] + body + [Free(l)]
  }

  function If(cond: bool, body: seq<Action>): seq<Action> {
    if cond then body else []
  }

  // rocket_device_pm_get, _put and _put_noidle look alike from here: the count is read, and
  // changed unless the unit does not resume or the put warns.
  function Pm(counted: bool): seq<Action> {
    Guarded(PmLock, [Use(PmRefs)] + If(counted, [Use(PmRefs)]))
  }

  function Signal(core: nat): seq<Action> {
    Guarded(FenceLock(core), [])
  }

  function Mm(domain: nat): seq<Action> {
    Guarded(MmLock(domain), [Use(Nodes(domain))])
  }

  function Script(c: Call): seq<Action> {
    match c
    case Run(core, empty, powered, held, switch, refused) => Guarded(Worker(core), RunBody(c))
    case Irq(core, busy, done) => Guarded(JobLock(core), IrqBody(core, busy, done))
    case Reset(core, inFlight, attached) =>
      Guarded(Worker(core), Guarded(JobLock(core), ResetBody(core, inFlight, attached)))
    case DomainGet(file, second, lost) => Lookups(file, second, lost)
    case MemCreate(file, second, lost, domain, inserts, undoes) =>
      Lookups(file, second, lost) + If(inserts, Mm(domain) + If(undoes, Mm(domain)))
    case BoFree(domain) => Mm(domain)
    case JobPush => Guarded(SchedLock, [])
    case CloseCore(core, file, filled, mine) =>
      Guarded(JobLock(core), Probes(core, file, filled) + If(mine, [Touch(core)] + [Use(Attached(core))]))
    case DomainsClose(file, domains) => Clears(file, domains)
  }

  function RunBody(c: Call): seq<Action>
    requires c.Run?
  {
    If(!c.empty, Pm(c.powered)
                 + If(c.powered, RunSection(c.core, c.held, c.switch, c.refused)
                                 + If(c.switch && c.refused, Pm(true) + Signal(c.core))))
  }

  function RunSection(core: nat, held: bool, switch: bool, refused: bool): seq<Action> {
    Guarded(JobLock(core), [Use(Attached(core))] + If(switch, Switch(core, held))
                           + If(!(switch && refused), [Use(InFlight(core))]))
  }

  function Switch(core: nat, held: bool): seq<Action> {
    Guarded(PmLock, [Use(Attached(core))] + If(held, [Touch(core)]) + [Touch(core)]) + [Use(Attached(core))]
  }

  function IrqBody(core: nat, busy: bool, done: bool): seq<Action> {
    var use := [Use(InFlight(core))];
    use + If(busy, use + use + If(done, Signal(core) + Pm(true) + use))
  }

  function ResetBody(core: nat, inFlight: bool, attached: bool): seq<Action> {
    [Use(InFlight(core))] + If(inFlight, Pm(true))
    + [Use(Attached(core))] + If(attached, Guarded(PmLock, [Touch(core)]) + [Use(Attached(core))])
    + [Use(InFlight(core))]
  }

  function Lookups(file: nat, second: bool, lost: bool): seq<Action> {
    var use := [Use(Slots(file))];
    Guarded(DomainsLock(file), use) + If(second, Guarded(DomainsLock(file), use + If(!lost, use)))
  }

  function Probes(core: nat, file: nat, filled: seq<bool>): seq<Action> {
    if filled == [] then []
    else Probes(core, file, filled[..|filled| - 1]) + Probe(core, file, filled[|filled| - 1])
  }

  function Probe(core: nat, file: nat, filled: bool): seq<Action> {
    [Use(Slots(file))] + If(filled, [Use(Attached(core))])
  }

  function Clears(file: nat, domains: seq<Option<nat>>): seq<Action> {
    if domains == [] then []
    else Clears(file, domains[..|domains| - 1]) + ClearSlot(file, domains[|domains| - 1])
  }

  function ClearSlot(file: nat, domain: Option<nat>): seq<Action> {
    [Use(Slots(file))] + if domain.Some? then [Use(Slots(file))] + [Use(Nodes(domain.value))] else []
  }

  // ---- the discipline ----

  // May `inner` be taken by a thread that holds `outer`?
  predicate Nests(outer: Lock, inner: Lock) {
    || (outer.Worker? && (inner.JobLock? || inner.PmLock? || inner.FenceLock?))
    || (outer.JobLock? && (inner.PmLock? || inner.FenceLock?))
  }

  function Rank(l: Lock): nat {
    if l.Worker? then 0 else if l.JobLock? then 1 else 2
  }

  // The locks held after a script, or None if it breaks the discipline: a lock taken out of
  // order, one freed that is not the innermost, or a group touched without its job_lock.
  function HeldAfter(held: seq<Lock>, script: seq<Action>): Option<seq<Lock>>
    decreases |script|
  {
    if script == [] then Some(held)
    else
      match script[0]
      case Take(l) =>
        if forall i | 0 <= i < |held| :: Nests(held[i], l) then HeldAfter(held + [l], script[1..]) else None
      case Free(l) =>
        if held != [] && held[|held| - 1] == l then HeldAfter(held[..|held| - 1], script[1..]) else None
      case Touch(c) => if JobLock(c) in held then HeldAfter(held, script[1..]) else None
      case Use(r) => HeldAfter(held, script[1..])
  }

  // Is every access made under the field's own lock?  While a file is closing nobody else
  // reaches its pool slots and its domains' nodes, so `closing` lets those be.
  predicate Protected(closing: bool, held: seq<Lock>, script: seq<Action>)
    decreases |script|
  {
    script == [] ||
    match script[0]
    case Take(l) => Protected(closing, held + [l], script[1..])
    case Free(l) => held != [] && Protected(closing, held[..|held| - 1], script[1..])
    case Touch(c) => Protected(closing, held, script[1..])
    case Use(r) => (Guard(r) in held || (closing && (r.Slots? || r.Nodes?))) && Protected(closing, held, script[1..])
  }

  // Is every touch of the script made with pm_lock held?
  predicate UnderPm(held: seq<Lock>, script: seq<Action>)
    decreases |script|
  {
    script == [] ||
    match script[0]
    case Take(l) => UnderPm(held + [l], script[1..])
    case Free(l) => held != [] && UnderPm(held[..|held| - 1], script[1..])
    case Touch(c) => PmLock in held && UnderPm(held, script[1..])
    case Use(r) => UnderPm(held, script[1..])
  }

  // The script returns to the locks it started with, and its accesses are protected, but for
  // closing; `pm` says if all its touches are under pm_lock, `strict` if all its accesses are
  // protected even so.
  predicate Keeps(held: seq<Lock>, script: seq<Action>, pm: bool, strict: bool) {
    && HeldAfter(held, script) == Some(held) && UnderPm(held, script) == pm
    && Protected(true, held, script) && Protected(false, held, script) == strict
  }

  lemma {:induction false} Sequence(held: seq<Lock>, a: seq<Action>, b: seq<Action>)
    requires HeldAfter(held, a).Some?
    ensures HeldAfter(held, a + b) == HeldAfter(HeldAfter(held, a).value, b)
    ensures UnderPm(held, a + b) == (UnderPm(held, a) && UnderPm(HeldAfter(held, a).value, b))
    ensures Protected(true, held, a + b)
         == (Protected(true, held, a) && Protected(true, HeldAfter(held, a).value, b))
    ensures Protected(false, held, a + b)
         == (Protected(false, held, a) && Protected(false, HeldAfter(held, a).value, b))
    decreases |a|
  {
    if a == [] {
      assert a + b == b;
    } else {
      assert (a + b)[1..] == a[1..] + b;
      match a[0]
      case Take(l) => Sequence(held + [l], a[1..], b);
      case Free(l) => Sequence(held[..|held| - 1], a[1..], b);
      case Touch(c) => Sequence(held, a[1..], b);
      case Use(r) => Sequence(held, a[1..], b);
    }
  }

  // A body that keeps the discipline under l keeps it when guarded by l.
  lemma GuardedOk(held: seq<Lock>, l: Lock, body: seq<Action>, pm: bool, strict: bool)
    requires forall i | 0 <= i < |held| :: Nests(held[i], l)
    requires Keeps(held + [l], body, pm, strict)
    ensures Keeps(held, Guarded(l, body), pm, strict)
  {
    var tail := [Free(l)];
    assert Guarded(l, body)[1..] == body + tail;
    Sequence(held + [l], body, tail);
    assert (held + [l])[..|held|] == held;
    assert tail[1..] == [];
  }

  lemma BothOk(held: seq<Lock>, a: seq<Action>, p: bool, x: bool, b: seq<Action>, q: bool, y: bool)
    requires Keeps(held, a, p, x) && Keeps(held, b, q, y)
    ensures Keeps(held, a + b, p && q, x && y)
  {
    Sequence(held, a, b);
  }

  lemma JoinOk(held: seq<Lock>, a: seq<Action>, b: seq<Action>)
    requires Keeps(held, a, true, true) && Keeps(held, b, true, true)
    ensures Keeps(held, a + b, true, true)
  {
    BothOk(held, a, true, true, b, true, true);
  }

  lemma NothingOk(held: seq<Lock>)
    ensures Keeps(held, [], true, true)
  {
  }

  lemma UseOk(held: seq<Lock>, r: Resource)
    requires Guard(r) in held
    ensures Keeps(held, [Use(r)], true, true)
  {
    assert [Use(r)][1..] == [];
  }

  lemma TouchOk(held: seq<Lock>, core: nat)
    requires JobLock(core) in held
    ensures Keeps(held, [Touch(core)], PmLock in held, true)
  {
    assert [Touch(core)][1..] == [];
  }

  lemma PmOk(held: seq<Lock>, counted: bool)
    requires forall i | 0 <= i < |held| :: Nests(held[i], PmLock)
    ensures Keeps(held, Pm(counted), true, true)
  {
    var p := held + [PmLock];
    NothingOk(p);
    UseOk(p, PmRefs);
    JoinOk(p, [Use(PmRefs)], If(counted, [Use(PmRefs)]));
    GuardedOk(held, PmLock, [Use(PmRefs)] + If(counted, [Use(PmRefs)]), true, true);
  }

  lemma SignalOk(held: seq<Lock>, core: nat)
    requires forall i | 0 <= i < |held| :: Nests(held[i], FenceLock(core))
    ensures Keeps(held, Signal(core), true, true)
  {
    NothingOk(held + [FenceLock(core)]);
    GuardedOk(held, FenceLock(core), [], true, true);
  }

  lemma MmOk(domain: nat)
    ensures Keeps([], Mm(domain), true, true)
  {
    var m := [MmLock(domain)];
    assert [] + m == m;
    UseOk(m, Nodes(domain));
    GuardedOk([], MmLock(domain), [Use(Nodes(domain))], true, true);
  }

  // Is the call part of closing a file, with a pool slot to look at?
  predicate ClosesSlots(c: Call) {
    (c.CloseCore? && c.filled != []) || (c.DomainsClose? && c.domains != [])
  }

  // Every entry point, on every branch, takes locks in order, frees them innermost first, returns
  // with none held, touches a core's group only under that core's job_lock, and accesses every
  // shared field only under the field's lock.  There are two exceptions, both in closing a file:
  // its detach is not under pm_lock, and its looks at the pool slots are not under domains_lock.
  lemma ScriptOk(c: Call)
    ensures HeldAfter([], Script(c)) == Some([])
    ensures UnderPm([], Script(c)) <==> !(c.CloseCore? && c.mine)
    ensures Protected(true, [], Script(c))
    ensures Protected(false, [], Script(c)) <==> !ClosesSlots(c)
  {
    match c
    case Run(core, empty, powered, held, switch, refused) => RunOk(c);
    case Irq(core, busy, done) => IrqOk(core, busy, done);
    case Reset(core, inFlight, attached) => ResetOk(core, inFlight, attached);
    case DomainGet(file, second, lost) => LookupsOk(file, second, lost);
    case MemCreate(file, second, lost, domain, inserts, undoes) =>
      LookupsOk(file, second, lost);
      MmOk(domain);
      NothingOk([]);
      JoinOk([], Mm(domain), If(undoes, Mm(domain)));
      JoinOk([], Lookups(file, second, lost), If(inserts, Mm(domain) + If(undoes, Mm(domain))));
    case BoFree(domain) => MmOk(domain);
    case JobPush =>
      NothingOk([SchedLock]);
      GuardedOk([], SchedLock, [], true, true);
    case CloseCore(core, file, filled, mine) => CloseCoreOk(core, file, filled, mine);
    case DomainsClose(file, domains) => ClearsOk(file, domains);
  }

  lemma LookupsOk(file: nat, second: bool, lost: bool)
    ensures Keeps([], Lookups(file, second, lost), true, true)
  {
    var d, use := [DomainsLock(file)], [Use(Slots(file))];
    assert [] + d == d;
    UseOk(d, Slots(file));
    NothingOk(d);
    NothingOk([]);
    JoinOk(d, use, If(!lost, use));
    GuardedOk([], DomainsLock(file), use, true, true);
    GuardedOk([], DomainsLock(file), use + If(!lost, use), true, true);
    JoinOk([], Guarded(DomainsLock(file), use), If(second, Guarded(DomainsLock(file), use + If(!lost, use))));
  }

  lemma IrqOk(core: nat, busy: bool, done: bool)
    ensures Keeps([], Script(Irq(core, busy, done)), true, true)
  {
    var j, use := [JobLock(core)], [Use(InFlight(core))];
    assert [] + j == j;
    NothingOk(j);
    UseOk(j, InFlight(core));
    SignalOk(j, core);
    PmOk(j, true);
    JoinOk(j, Signal(core), Pm(true));
    JoinOk(j, Signal(core) + Pm(true), use);
    JoinOk(j, use, use);
    JoinOk(j, use + use, If(done, Signal(core) + Pm(true) + use));
    JoinOk(j, use, If(busy, use + use + If(done, Signal(core) + Pm(true) + use)));
    GuardedOk([], JobLock(core), IrqBody(core, busy, done), true, true);
  }

  lemma SwitchOk(core: nat, held: bool)
    ensures Keeps([Worker(core), JobLock(core)], Switch(core, held), true, true)
  {
    var j := [Worker(core), JobLock(core)];
    var p := j + [PmLock];
    NothingOk(p);
    UseOk(p, Attached(core));
    UseOk(j, Attached(core));
    TouchOk(p, core);
    JoinOk(p, [Use(Attached(core))], If(held, [Touch(core)]));
    JoinOk(p, [Use(Attached(core))] + If(held, [Touch(core)]), [Touch(core)]);
    GuardedOk(j, PmLock, [Use(Attached(core))] + If(held, [Touch(core)]) + [Touch(core)], true, true);
    JoinOk(j, Guarded(PmLock, [Use(Attached(core))] + If(held, [Touch(core)]) + [Touch(core)]), [Use(Attached(core))]);
  }

  lemma RunSectionOk(core: nat, held: bool, switch: bool, refused: bool)
    ensures Keeps([Worker(core)], RunSection(core, held, switch, refused), true, true)
  {
    var w, j := [Worker(core)], [Worker(core), JobLock(core)];
    assert w + [JobLock(core)] == j;
    NothingOk(j);
    UseOk(j, Attached(core));
    UseOk(j, InFlight(core));
    SwitchOk(core, held);
    var body := [Use(Attached(core))] + If(switch, Switch(core, held));
    JoinOk(j, [Use(Attached(core))], If(switch, Switch(core, held)));
    JoinOk(j, body, If(!(switch && refused), [Use(InFlight(core))]));
    GuardedOk(w, JobLock(core), body + If(!(switch && refused), [Use(InFlight(core))]), true, true);
  }

  lemma RunOk(c: Call)
    requires c.Run?
    ensures Keeps([], Script(c), true, true)
  {
    var w := [Worker(c.core)];
    assert [] + w == w;
    NothingOk(w);
    RunSectionOk(c.core, c.held, c.switch, c.refused);
    PmOk(w, c.powered);
    PmOk(w, true);
    SignalOk(w, c.core);
    JoinOk(w, Pm(true), Signal(c.core));
    var fail := If(c.switch && c.refused, Pm(true) + Signal(c.core));
    JoinOk(w, RunSection(c.core, c.held, c.switch, c.refused), fail);
    JoinOk(w, Pm(c.powered), If(c.powered, RunSection(c.core, c.held, c.switch, c.refused) + fail));
    GuardedOk([], Worker(c.core), RunBody(c), true, true);
  }

  lemma ResetOk(core: nat, inFlight: bool, attached: bool)
    ensures Keeps([], Script(Reset(core, inFlight, attached)), true, true)
  {
    var w, j := [Worker(core)], [Worker(core), JobLock(core)];
    assert [] + w == w && w + [JobLock(core)] == j;
    var p := j + [PmLock];
    var uf, ua := [Use(InFlight(core))], [Use(Attached(core))];
    NothingOk(j);
    UseOk(j, InFlight(core));
    UseOk(j, Attached(core));
    PmOk(j, true);
    TouchOk(p, core);
    GuardedOk(j, PmLock, [Touch(core)], true, true);
    JoinOk(j, Guarded(PmLock, [Touch(core)]), ua);
    var detach := If(attached, Guarded(PmLock, [Touch(core)]) + ua);
    JoinOk(j, uf, If(inFlight, Pm(true)));
    JoinOk(j, uf + If(inFlight, Pm(true)), ua);
    JoinOk(j, uf + If(inFlight, Pm(true)) + ua, detach);
    JoinOk(j, uf + If(inFlight, Pm(true)) + ua + detach, uf);
    GuardedOk(w, JobLock(core), ResetBody(core, inFlight, attached), true, true);
    GuardedOk([], Worker(core), Guarded(JobLock(core), ResetBody(core, inFlight, attached)), true, true);
  }

  // A look at a pool slot without domains_lock.
  lemma BareUse(held: seq<Lock>, r: Resource)
    requires Guard(r) !in held && (r.Slots? || r.Nodes?)
    ensures Keeps(held, [Use(r)], true, false)
  {
    assert [Use(r)][1..] == [];
  }

  lemma {:induction false} ProbesOk(core: nat, file: nat, filled: seq<bool>)
    ensures Keeps([JobLock(core)], Probes(core, file, filled), true, filled == [])
  {
    var j := [JobLock(core)];
    NothingOk(j);
    if filled != [] {
      ProbesOk(core, file, filled[..|filled| - 1]);
      BareUse(j, Slots(file));
      UseOk(j, Attached(core));
      BothOk(j, [Use(Slots(file))], true, false, If(filled[|filled| - 1], [Use(Attached(core))]), true, true);
      BothOk(j, Probes(core, file, filled[..|filled| - 1]), true, |filled| == 1,
             Probe(core, file, filled[|filled| - 1]), true, false);
    }
  }

  lemma CloseCoreOk(core: nat, file: nat, filled: seq<bool>, mine: bool)
    ensures Keeps([], Script(CloseCore(core, file, filled, mine)), !mine, filled == [])
  {
    var j := [JobLock(core)];
    assert [] + j == j;
    NothingOk(j);
    ProbesOk(core, file, filled);
    TouchOk(j, core);
    UseOk(j, Attached(core));
    BothOk(j, [Touch(core)], false, true, [Use(Attached(core))], true, true);
    var detach := If(mine, [Touch(core)] + [Use(Attached(core))]);
    BothOk(j, Probes(core, file, filled), true, filled == [], detach, !mine, true);
    GuardedOk([], JobLock(core), Probes(core, file, filled) + detach, !mine, filled == []);
  }

  lemma {:induction false} ClearsOk(file: nat, domains: seq<Option<nat>>)
    ensures Keeps([], Clears(file, domains), true, domains == [])
  {
    NothingOk([]);
    if domains != [] {
      var last := domains[|domains| - 1];
      ClearsOk(file, domains[..|domains| - 1]);
      BareUse([], Slots(file));
      if last.Some? {
        BareUse([], Nodes(last.value));
        BothOk([], [Use(Slots(file))], true, false, [Use(Nodes(last.value))], true, false);
        BothOk([], [Use(Slots(file))], true, false, [Use(Slots(file))] + [Use(Nodes(last.value))], true, false);
      } else {
        assert ClearSlot(file, last) == [Use(Slots(file))];
      }
      BothOk([], Clears(file, domains[..|domains| - 1]), true, |domains| == 1, ClearSlot(file, last), true, false);
    }
  }

  // ---- any number of threads ----

  datatype Thread = Thread(held: seq<Lock>, rest: seq<Action>)

  function Scripts(calls: seq<Call>): seq<Action> {
    if calls == [] then [] else Script(calls[0]) + Scripts(calls[1..])
  }

  lemma {:induction false} ScriptsAppend(calls: seq<Call>, c: Call)
    ensures Scripts(calls + [c]) == Scripts(calls) + Script(c)
  {
    if calls == [] {
      assert (calls + [c])[1..] == [];
    } else {
      assert (calls + [c])[1..] == calls[1..] + [c];
      ScriptsAppend(calls[1..], c);
    }
  }

  predicate CanStep(ts: seq<Thread>, t: nat)
    requires t < |ts|
  {
    ts[t].rest != [] &&
    (ts[t].rest[0].Take? ==> forall u | 0 <= u < |ts| :: ts[t].rest[0].lock !in ts[u].held)
  }

  function Step(ts: seq<Thread>, t: nat): seq<Thread>
    requires t < |ts| && ts[t].rest != []
  {
    var th := ts[t];
    var held := match th.rest[0]
      case Take(l) => th.held + [l]
      case Free(l) => if th.held == [] then [] else th.held[..|th.held| - 1]
      case Touch(c) => th.held
      case Use(r) => th.held;
    ts[t := Thread(held, th.rest[1..])]
  }

  // Each thread is inside a disciplined script with protected accesses, its locks nest, and no
  // lock has two holders.
  ghost predicate Ok(ts: seq<Thread>, closing: bool) {
    && (forall t | 0 <= t < |ts| :: ThreadOk(ts[t], closing))
    && (forall t, u, l | 0 <= t < |ts| && 0 <= u < |ts| && l in ts[t].held && l in ts[u].held :: t == u)
  }

  ghost predicate ThreadOk(th: Thread, closing: bool) {
    && HeldAfter(th.held, th.rest) == Some([]) && Protected(closing, th.held, th.rest)
    && (forall i, k | 0 <= i < k < |th.held| :: Nests(th.held[i], th.held[k]))
  }

  lemma {:induction false} CallsOk(calls: seq<Call>, closing: bool)
    requires closing || forall c <- calls :: !ClosesSlots(c)
    ensures HeldAfter([], Scripts(calls)) == Some([]) && Protected(closing, [], Scripts(calls))
  {
    if calls != [] {
      ScriptOk(calls[0]);
      CallsOk(calls[1..], closing);
      Sequence([], Script(calls[0]), Scripts(calls[1..]));
    }
  }

  lemma StepOk(ts: seq<Thread>, t: nat, closing: bool)
    requires Ok(ts, closing) && t < |ts| && CanStep(ts, t)
    ensures Ok(Step(ts, t), closing)
  {
    var n := Step(ts, t);
    assert ThreadOk(ts[t], closing);
    assert ThreadOk(n[t], closing);
  }

  // What a blocked thread waits for is held by a thread whose own next lock ranks higher, so
  // following the chain ends at a thread that can step.
  lemma {:induction false} Chase(ts: seq<Thread>, t: nat) returns (u: nat)
    requires Ok(ts, true) && t < |ts| && ts[t].rest != []
    ensures u < |ts| && CanStep(ts, u)
    decreases if ts[t].rest[0].Take? then 3 - Rank(ts[t].rest[0].lock) else 0
  {
    u := t;
    if !CanStep(ts, t) {
      var l := ts[t].rest[0].lock;
      u :| 0 <= u < |ts| && l in ts[u].held;
      assert ThreadOk(ts[u], true);
      assert ts[u].rest != [];
      var next := ts[u].rest[0];
      if next.Take? {
        var i :| 0 <= i < |ts[u].held| && ts[u].held[i] == l;
        assert Nests(l, next.lock);
        u := Chase(ts, u);
      }
    }
  }

  // ---- whole runs ----

  ghost predicate ValidRun(ts: seq<Thread>, run: seq<nat>)
    decreases |run|
  {
    run == [] || (run[0] < |ts| && CanStep(ts, run[0]) && ValidRun(Step(ts, run[0]), run[1..]))
  }

  ghost function After(ts: seq<Thread>, run: seq<nat>): seq<Thread>
    requires ValidRun(ts, run)
    decreases |run|
  {
    if run == [] then ts else After(Step(ts, run[0]), run[1..])
  }

  function Remaining(ts: seq<Thread>): nat {
    if ts == [] then 0 else |ts[0].rest| + Remaining(ts[1..])
  }

  lemma {:induction false} StepRemaining(ts: seq<Thread>, t: nat)
    requires t < |ts| && ts[t].rest != []
    ensures Remaining(Step(ts, t)) == Remaining(ts) - 1
  {
    var n := Step(ts, t);
    if t == 0 {
      assert n[1..] == ts[1..];
    } else {
      assert n[1..] == Step(ts[1..], t - 1);
      StepRemaining(ts[1..], t - 1);
    }
  }

  lemma {:induction false} RunOkay(ts: seq<Thread>, run: seq<nat>, closing: bool)
    requires Ok(ts, closing) && ValidRun(ts, run)
    ensures Ok(After(ts, run), closing) && Remaining(After(ts, run)) + |run| == Remaining(ts)
    ensures |After(ts, run)| == |ts|
    decreases |run|
  {
    if run != [] {
      StepOk(ts, run[0], closing);
      StepRemaining(ts, run[0]);
      RunOkay(Step(ts, run[0]), run[1..], closing);
    }
  }

  // Threads about to do any calls; or any but the closing of a file that others still use.
  ghost predicate Fresh(ts: seq<Thread>, closing: bool) {
    forall t | 0 <= t < |ts| ::
      ts[t].held == []
      && exists calls :: ts[t].rest == Scripts(calls) && (closing || forall c <- calls :: !ClosesSlots(c))
  }

  lemma FreshOk(ts: seq<Thread>, closing: bool)
    requires Fresh(ts, closing)
    ensures Ok(ts, closing)
  {
    forall t | 0 <= t < |ts| ensures ThreadOk(ts[t], closing) {
      var calls :| ts[t].rest == Scripts(calls) && (closing || forall c <- calls :: !ClosesSlots(c));
      CallsOk(calls, closing);
    }
  }

  // Any number of threads doing any calls, scheduled in any way, never deadlock: as long as
  // one of them is unfinished some thread can step, and no schedule is longer than the calls'
  // own actions.
  lemma NeverDeadlocked(ts: seq<Thread>, run: seq<nat>)
    requires Fresh(ts, true) && ValidRun(ts, run)
    ensures var now := After(ts, run);
      && |run| <= Remaining(ts)
      && ((exists t :: 0 <= t < |now| && now[t].rest != []) <==> (exists u :: 0 <= u < |now| && CanStep(now, u)))
  {
    FreshOk(ts, true);
    RunOkay(ts, run, true);
    var now := After(ts, run);
    if t :| 0 <= t < |now| && now[t].rest != [] {
      var u := Chase(now, t);
    }
  }

  ghost predicate NestingOk(th: Thread) {
    && (forall a, b | JobLock(a) in th.held && JobLock(b) in th.held :: a == b)
    && (forall l | l in th.held && (l.DomainsLock? || l.MmLock? || l.SchedLock?) :: th.held == [l])
    && (th.rest != [] && th.rest[0].Take? && th.rest[0].lock.JobLock? ==> forall l | l in th.held :: l.Worker?)
  }

  lemma NestingOf(th: Thread)
    requires ThreadOk(th, true)
    ensures NestingOk(th)
  {
    forall l | l in th.held && (l.DomainsLock? || l.MmLock? || l.SchedLock?) ensures th.held == [l] {
      var i :| 0 <= i < |th.held| && th.held[i] == l;
      var first, last := th.held[0], th.held[|th.held| - 1];
      assert |th.held| == 1;
    }
  }

  // In every reachable state a thread holds at most one job_lock, holds a pool, allocator or
  // push lock alone, and never holds pm_lock, or any other driver lock, while taking a job_lock.
  lemma NestingHolds(ts: seq<Thread>, run: seq<nat>)
    requires Fresh(ts, true) && ValidRun(ts, run)
    ensures forall th <- After(ts, run) :: NestingOk(th)
  {
    FreshOk(ts, true);
    RunOkay(ts, run, true);
    forall th <- After(ts, run) ensures NestingOk(th) {
      NestingOf(th);
    }
  }

  // No two threads are ever about to touch the same core's group.
  lemma TouchAlone(ts: seq<Thread>, run: seq<nat>, t: nat, u: nat, core: nat)
    requires Fresh(ts, true) && ValidRun(ts, run)
    requires var now := After(ts, run);
      && t < |now| && u < |now| && now[t].rest != [] && now[u].rest != []
      && now[t].rest[0] == Touch(core) == now[u].rest[0]
    ensures t == u
  {
    FreshOk(ts, true);
    RunOkay(ts, run, true);
    var now := After(ts, run);
    assert ThreadOk(now[t], true) && ThreadOk(now[u], true);
  }

  // No two threads are ever about to access the same shared field; for the pool slots and nodes
  // of a file, as long as it is not being closed.
  lemma UseAlone(ts: seq<Thread>, run: seq<nat>, t: nat, u: nat, res: Resource, closing: bool)
    requires Fresh(ts, closing) && ValidRun(ts, run) && (closing ==> !res.Slots? && !res.Nodes?)
    requires var now := After(ts, run);
      && t < |now| && u < |now| && now[t].rest != [] && now[u].rest != []
      && now[t].rest[0] == Use(res) == now[u].rest[0]
    ensures t == u
  {
    FreshOk(ts, closing);
    RunOkay(ts, run, closing);
    var now := After(ts, run);
    assert ThreadOk(now[t], closing) && ThreadOk(now[u], closing);
  }
}
