/**
 rocket_device.c: one device-wide reference count drives the runtime-PM usage counts of
 every core.  `Unit` is the abstract value; `PowerUnit` is the code, with its ascending
 resume loop, descending rollback and descending release.
 */
module Power {
  import L = Locks

  // refs is pm_refcount; usage[i] is core i's runtime-PM usage count.
  datatype Unit = Unit(refs: nat, usage: seq<int>)

  // All cores carry the never-gate reference taken at probe plus one while refs > 0.
  ghost predicate Held(u: Unit) {
    forall i | 0 <= i < |u.usage| :: u.usage[i] == 1 + (if u.refs > 0 then 1 else 0)
  }

  function Shift(usage: seq<int>, d: int): (r: seq<int>)
    ensures |r| == |usage|
    ensures forall i | 0 <= i < |r| :: r[i] == usage[i] + d
  {
    seq(|usage|, i requires 0 <= i < |usage| => usage[i] + d)
  }

  // Does the resume of the unit succeed, when core `fail` is the first that refuses?
  predicate GetOk(u: Unit, fail: nat) {
    u.refs > 0 || fail >= |u.usage|
  }

  function Get(u: Unit, fail: nat): Unit {
    if u.refs > 0 then u.(refs := u.refs + 1)
    else if fail < |u.usage| then u
    else Unit(1, Shift(u.usage, 1))
  }

  // Both puts; refs == 0 is the WARN_ON exit, which changes nothing.
  function Put(u: Unit): Unit {
    if u.refs == 0 then u
    else if u.refs == 1 then Unit(0, Shift(u.usage, -1))
    else u.(refs := u.refs - 1)
  }

  lemma UnitKept(u: Unit, fail: nat)
    requires Held(u)
    ensures Held(Get(u, fail)) && Held(Put(u))
    ensures GetOk(u, fail) ==> Put(Get(u, fail)) == u
    ensures !GetOk(u, fail) ==> Get(u, fail) == u
    ensures u.refs > 0 && GetOk(Put(u), fail) ==> Get(Put(u), fail) == u
  {
    if u.refs == 0 && fail >= |u.usage| {
      assert Shift(Shift(u.usage, 1), -1) == u.usage;
    }
    if u.refs == 1 {
      assert Shift(Shift(u.usage, -1), 1) == u.usage;
    }
  }

  // ---- the runtime-PM calls the code makes, in order ----

  datatype PmCall = Resume(core: nat) | PutAutosuspend(core: nat) | PutNoidle(core: nat)

  ghost function Effect(usage: seq<int>, c: PmCall): (r: seq<int>)
    ensures |r| == |usage|
  {
    if c.core >= |usage| then usage
    else usage[c.core := usage[c.core] + if c.Resume? then 1 else -1]
  }

  ghost function Replay(usage: seq<int>, calls: seq<PmCall>): (r: seq<int>)
    ensures |r| == |usage|
  {
    if calls == [] then usage else Effect(Replay(usage, calls[..|calls| - 1]), calls[|calls| - 1])
  }

  // Core 0 first.
  ghost function Up(k: nat): seq<PmCall> {
    seq(k, i requires 0 <= i < k => Resume(i))
  }

  // Core 0 last.
  ghost function Down(k: nat): seq<PmCall> {
    seq(k, i requires 0 <= i < k => PutAutosuspend(k - 1 - i))
  }

  ghost function UpNoidle(k: nat): seq<PmCall> {
    seq(k, i requires 0 <= i < k => PutNoidle(i))
  }

  // What rocket_device_pm_get issues: nothing, the whole unit, or a rolled-back prefix.
  ghost function GetCalls(u: Unit, fail: nat): seq<PmCall> {
    if u.refs > 0 then []
    else if fail < |u.usage| then Up(fail) + Down(fail)
    else Up(|u.usage|)
  }

  ghost function PutCalls(u: Unit): seq<PmCall> {
    if u.refs == 1 then Down(|u.usage|) else []
  }

  ghost function PutNoidleCalls(u: Unit): seq<PmCall> {
    if u.refs == 1 then UpNoidle(|u.usage|) else []
  }

  lemma {:induction false} ReplayConcat(usage: seq<int>, a: seq<PmCall>, b: seq<PmCall>)
    ensures Replay(usage, a + b) == Replay(Replay(usage, a), b)
    decreases |b|
  {
    if b == [] {
      assert a + b == a;
    } else {
      assert (a + b)[..|a + b| - 1] == a + b[..|b| - 1];
      ReplayConcat(usage, a, b[..|b| - 1]);
    }
  }

  lemma {:induction false} ReplayUp(usage: seq<int>, k: nat)
    requires k <= |usage|
    ensures forall i | 0 <= i < |usage| :: Replay(usage, Up(k))[i] == usage[i] + (if i < k then 1 else 0)
  {
    if k > 0 {
      assert Up(k)[..k - 1] == Up(k - 1);
      ReplayUp(usage, k - 1);
    }
  }

  lemma {:induction false} ReplayDown(usage: seq<int>, k: nat, p: nat)
    requires p <= k <= |usage|
    ensures forall i | 0 <= i < |usage| ::
      Replay(usage, Down(k)[..p])[i] == usage[i] - (if k - p <= i < k then 1 else 0)
  {
    if p > 0 {
      assert Down(k)[..p][..p - 1] == Down(k)[..p - 1];
      ReplayDown(usage, k, p - 1);
    }
  }

  lemma {:induction false} ReplayUpNoidle(usage: seq<int>, k: nat)
    requires k <= |usage|
    ensures forall i | 0 <= i < |usage| :: Replay(usage, UpNoidle(k))[i] == usage[i] - (if i < k then 1 else 0)
  {
    if k > 0 {
      assert UpNoidle(k)[..k - 1] == UpNoidle(k - 1);
      ReplayUpNoidle(usage, k - 1);
    }
  }

  // The rolled-back prefix: up to core fail, then down again.
  lemma RolledBack(usage: seq<int>, fail: nat, p: nat)
    requires fail < |usage| && p <= 2 * fail && forall i | 0 <= i < |usage| :: usage[i] == 1
    ensures |Up(fail) + Down(fail)| == 2 * fail && Replay(usage, Up(fail) + Down(fail)) == usage
    ensures forall i | 0 <= i < |usage| :: Replay(usage, (Up(fail) + Down(fail))[..p])[i] >= 1
  {
    ReplayUp(usage, fail);
    var mid := Replay(usage, Up(fail));
    ReplayConcat(usage, Up(fail), Down(fail));
    ReplayDown(mid, fail, fail);
    assert Down(fail)[..fail] == Down(fail);
    if p <= fail {
      assert (Up(fail) + Down(fail))[..p] == Up(p);
      ReplayUp(usage, p);
    } else {
      assert (Up(fail) + Down(fail))[..p] == Up(fail) + Down(fail)[..p - fail];
      ReplayConcat(usage, Up(fail), Down(fail)[..p - fail]);
      ReplayDown(mid, fail, p - fail);
    }
  }

  // The calls made by get, for any failing core: they add up to the abstract get, and no
  // core's usage count is below the never-gate reference after any prefix of them.
  lemma GetCallsSound(u: Unit, fail: nat, p: nat)
    requires Held(u) && p <= |GetCalls(u, fail)|
    ensures Replay(u.usage, GetCalls(u, fail)) == Get(u, fail).usage
    ensures forall i | 0 <= i < |u.usage| :: Replay(u.usage, GetCalls(u, fail)[..p])[i] >= 1
  {
    var n := |u.usage|;
    if u.refs > 0 {
      assert GetCalls(u, fail)[..p] == [];
    } else if fail < n {
      RolledBack(u.usage, fail, p);
    } else {
      ReplayUp(u.usage, n);
      assert Up(n)[..p] == Up(p);
      ReplayUp(u.usage, p);
    }
  }

  lemma PutCallsSound(u: Unit, p: nat, q: nat)
    requires Held(u) && p <= |PutCalls(u)| && q <= |PutNoidleCalls(u)|
    ensures Replay(u.usage, PutCalls(u)) == Put(u).usage == Replay(u.usage, PutNoidleCalls(u))
    ensures forall i | 0 <= i < |u.usage| :: Replay(u.usage, PutCalls(u)[..p])[i] >= 1
    ensures forall i | 0 <= i < |u.usage| :: Replay(u.usage, PutNoidleCalls(u)[..q])[i] >= 1
  {
    var n := |u.usage|;
    if u.refs == 1 {
      ReplayDown(u.usage, n, n);
      assert Down(n)[..n] == Down(n);
      ReplayDown(u.usage, n, p);
      ReplayUpNoidle(u.usage, n);
      assert UpNoidle(n)[..q] == UpNoidle(q);
      ReplayUpNoidle(u.usage, q);
    } else {
      assert PutCalls(u)[..p] == [] && PutNoidleCalls(u)[..q] == [];
    }
  }

  // ---- requests to idle ----

  // Which cores runtime PM has been asked to suspend, once nothing but the never-gate reference
  // uses them: a put with autosuspend at the last use asks, a put without does not, a resume
  // withdraws the request.
  ghost function Armed(usage: seq<int>, armed: seq<bool>, calls: seq<PmCall>): (r: seq<bool>)
    requires |armed| == |usage|
    ensures |r| == |armed|
  {
    if calls == [] then armed
    else
      var before := calls[..|calls| - 1];
      var c := calls[|calls| - 1];
      var was := Armed(usage, armed, before);
      if c.core >= |usage| then was
      else
        match c
        case Resume(i) => was[i := false]
        case PutAutosuspend(i) => if Replay(usage, before)[i] <= 2 then was[i := true] else was
        case PutNoidle(i) => was
  }

  lemma {:induction false} ArmedConcat(usage: seq<int>, armed: seq<bool>, a: seq<PmCall>, b: seq<PmCall>)
    requires |armed| == |usage|
    ensures Armed(usage, armed, a + b) == Armed(Replay(usage, a), Armed(usage, armed, a), b)
    decreases |b|
  {
    if b == [] {
      assert a + b == a;
    } else {
      var less := b[..|b| - 1];
      assert (a + b)[..|a + b| - 1] == a + less;
      ArmedConcat(usage, armed, a, less);
      ReplayConcat(usage, a, less);
    }
  }

  lemma {:induction false} ArmedUp(usage: seq<int>, armed: seq<bool>, k: nat)
    requires |armed| == |usage| && k <= |usage|
    ensures forall i | 0 <= i < |usage| :: Armed(usage, armed, Up(k))[i] == (k <= i && armed[i])
  {
    if k > 0 {
      assert Up(k)[..k - 1] == Up(k - 1);
      ArmedUp(usage, armed, k - 1);
    }
  }

  lemma {:induction false} ArmedDown(usage: seq<int>, armed: seq<bool>, k: nat, p: nat)
    requires |armed| == |usage| && p <= k <= |usage| && forall i | 0 <= i < k :: usage[i] == 2
    ensures forall i | 0 <= i < |usage| ::
      Armed(usage, armed, Down(k)[..p])[i] == (armed[i] || k - p <= i < k)
  {
    if p > 0 {
      assert Down(k)[..p][..p - 1] == Down(k)[..p - 1];
      ArmedDown(usage, armed, k, p - 1);
      ReplayDown(usage, k, p - 1);
    }
  }

  lemma {:induction false} ArmedNoidle(usage: seq<int>, armed: seq<bool>, k: nat)
    requires |armed| == |usage| && k <= |usage|
    ensures Armed(usage, armed, UpNoidle(k)) == armed
  {
    if k > 0 {
      assert UpNoidle(k)[..k - 1] == UpNoidle(k - 1);
      ArmedNoidle(usage, armed, k - 1);
    }
  }

  // The last ordinary put asks every core to idle and the last put_noidle none; puts before the
  // last change no request.
  lemma PutRequests(u: Unit, armed: seq<bool>)
    requires Held(u) && |armed| == |u.usage|
    ensures forall i | 0 <= i < |armed| :: Armed(u.usage, armed, PutCalls(u))[i] == (u.refs == 1 || armed[i])
    ensures Armed(u.usage, armed, PutNoidleCalls(u)) == armed
  {
    var n := |u.usage|;
    if u.refs == 1 {
      ArmedDown(u.usage, armed, n, n);
      assert Down(n)[..n] == Down(n);
      ArmedNoidle(u.usage, armed, n);
    }
  }

  // A get that powers the unit up withdraws all requests; one that fails at core `fail` asks
  // exactly the cores before it to idle again.
  lemma GetRequests(u: Unit, armed: seq<bool>, fail: nat)
    requires Held(u) && |armed| == |u.usage|
    ensures u.refs > 0 ==> Armed(u.usage, armed, GetCalls(u, fail)) == armed
    ensures u.refs == 0 ==> forall i | 0 <= i < |armed| ::
      Armed(u.usage, armed, GetCalls(u, fail))[i] == (fail < |armed| && (i < fail || armed[i]))
  {
    var n := |u.usage|;
    if u.refs == 0 && fail < n {
      ArmedUp(u.usage, armed, fail);
      ReplayUp(u.usage, fail);
      ArmedConcat(u.usage, armed, Up(fail), Down(fail));
      ArmedDown(Replay(u.usage, Up(fail)), Armed(u.usage, armed, Up(fail)), fail, fail);
      assert Down(fail)[..fail] == Down(fail);
    } else if u.refs == 0 {
      ArmedUp(u.usage, armed, n);
    }
  }

  // The calls in order: cores upwards, resumed; downwards, with autosuspend; upwards, without.
  predicate Resumes(made: seq<PmCall>, n: nat) {
    |made| == n && forall k | 0 <= k < n :: made[k] == Resume(k)
  }

  predicate Releases(made: seq<PmCall>, n: nat) {
    |made| == n && forall k | 0 <= k < n :: made[k] == PutAutosuspend(n - 1 - k)
  }

  predicate Drops(made: seq<PmCall>, n: nat) {
    |made| == n && forall k | 0 <= k < n :: made[k] == PutNoidle(k)
  }

  lemma Made(before: seq<PmCall>, made: seq<PmCall>)
    ensures (before + made)[|before|..] == made
  {
  }

  lemma InOrder(n: nat)
    ensures Resumes(Up(n), n) && Releases(Down(n), n) && Drops(UpNoidle(n), n)
    ensures (Up(n) + Down(n))[..n] == Up(n) && (Up(n) + Down(n))[n..] == Down(n)
  {
  }

  // ---- the code ----

  class PowerUnit {
    const usage: array<int>
    var refs: nat
    ghost var calls: seq<PmCall>

    ghost function Abs(): Unit
      reads this, usage
    {
      Unit(refs, usage[..])
    }

    // After probe: every core holds its never-gate reference, no job is in flight.
    constructor (cores: nat)
      ensures fresh(usage) && usage.Length == cores && calls == []
      ensures Abs().refs == 0 && Held(Abs())
    {
      usage := new int[cores](i => 1);
      refs := 0;
      calls := [];
    }

    // rocket_device_pm_resume_unit, when pm_runtime_resume_and_get first fails on core
    // `fail` (on none if fail >= num_cores).
    method ResumeUnit(fail: nat) returns (ok: bool)
      modifies this`calls, usage
      ensures ok <==> fail >= usage.Length
      // upwards from core 0, and on failure down again from the last core resumed
      ensures |calls| == |old(calls)| + if ok then usage.Length else 2 * fail
      ensures ok ==> Resumes(calls[|old(calls)|..], usage.Length)
      ensures !ok ==> Resumes(calls[|old(calls)|..][..fail], fail) && Releases(calls[|old(calls)|..][fail..], fail)
      ensures ok ==> usage[..] == Shift(old(usage[..]), 1) && calls == old(calls) + Up(usage.Length)
      ensures !ok ==> usage[..] == old(usage[..]) && calls == old(calls) + Up(fail) + Down(fail)
    {
      var i := 0;
      while i < usage.Length
        invariant 0 <= i <= usage.Length && i <= fail
        invariant forall k | 0 <= k < usage.Length :: usage[k] == old(usage[k]) + (if k < i then 1 else 0)
        invariant calls == old(calls) + Up(i)
      {
        if i == fail {
          while i > 0
            invariant 0 <= i <= fail < usage.Length
            invariant forall k | 0 <= k < usage.Length :: usage[k] == old(usage[k]) + (if k < i then 1 else 0)
            invariant calls == old(calls) + Up(fail) + Down(fail)[..fail - i]
          {
            i := i - 1;
            usage[i] := usage[i] - 1;
            calls := calls + [PutAutosuspend(i)];
            assert Down(fail)[..fail - i] == Down(fail)[..fail - i - 1] + [PutAutosuspend(i)];
          }
          assert Down(fail)[..fail] == Down(fail);
          Made(old(calls), Up(fail) + Down(fail));
          InOrder(fail);
          assert calls == old(calls) + (Up(fail) + Down(fail));
          return false;
        }
        usage[i] := usage[i] + 1;
        calls := calls + [Resume(i)];
        assert Up(i + 1) == Up(i) + [Resume(i)];
        i := i + 1;
      }
      Made(old(calls), Up(usage.Length));
      InOrder(usage.Length);
      return true;
    }

    // rocket_device_pm_release_unit
    method ReleaseUnit()
      modifies this`calls, usage
      ensures usage[..] == Shift(old(usage[..]), -1)
      ensures calls == old(calls) + Down(usage.Length)
      ensures |calls| == |old(calls)| + usage.Length && Releases(calls[|old(calls)|..], usage.Length)
    {
      var n := usage.Length;
      var i := n;
      while i > 0
        invariant 0 <= i <= n
        invariant forall k | 0 <= k < n :: usage[k] == old(usage[k]) - (if i <= k then 1 else 0)
        invariant calls == old(calls) + Down(n)[..n - i]
      {
        i := i - 1;
        usage[i] := usage[i] - 1;
        calls := calls + [PutAutosuspend(i)];
        assert Down(n)[..n - i] == Down(n)[..n - i - 1] + [PutAutosuspend(i)];
      }
      assert Down(n)[..n] == Down(n);
      Made(old(calls), Down(n));
      InOrder(n);
    }

    // rocket_device_pm_get
    method PmGet(fail: nat) returns (ok: bool, ghost log: seq<L.Action>)
      modifies this, usage
      ensures Abs() == Get(old(Abs()), fail) && ok == GetOk(old(Abs()), fail)
      ensures calls == old(calls) + GetCalls(old(Abs()), fail)
      ensures log == L.Pm(ok)
    {
      ok := true;
      log := [L.Take(L.PmLock)];
      log := log + [L.Use(L.PmRefs)];
      if refs == 0 {
        ok := ResumeUnit(fail);
        if ok {
          log := log + [L.Use(L.PmRefs)];
          refs := refs + 1;
        }
      } else {
        log := log + [L.Use(L.PmRefs)];
        refs := refs + 1;
      }
      log := log + [L.Free(L.PmLock)];
      assert calls == old(calls) + GetCalls(old(Abs()), fail);
    }

    // rocket_device_pm_put; warned is the WARN_ON exit.
    method PmPut() returns (warned: bool, ghost log: seq<L.Action>)
      modifies this, usage
      ensures Abs() == Put(old(Abs())) && warned == (old(refs) == 0)
      ensures calls == old(calls) + PutCalls(old(Abs()))
      // only the last put does anything to the cores
      ensures |calls| >= |old(calls)|
      ensures if old(refs) == 1 then Releases(calls[|old(calls)|..], usage.Length) else calls == old(calls)
      ensures log == L.Pm(!warned)
    {
      log := [L.Take(L.PmLock)];
      log := log + [L.Use(L.PmRefs)];
      warned := refs == 0;
      if warned {
        log := log + [L.Free(L.PmLock)];
        return;
      }
      log := log + [L.Use(L.PmRefs)];
      refs := refs - 1;
      if refs == 0 {
        ReleaseUnit();
      }
      log := log + [L.Free(L.PmLock)];
    }

    // rocket_device_pm_put_noidle
    method PmPutNoidle() returns (warned: bool, ghost log: seq<L.Action>)
      modifies this, usage
      ensures Abs() == Put(old(Abs())) && warned == (old(refs) == 0)
      ensures calls == old(calls) + PutNoidleCalls(old(Abs()))
      ensures |calls| >= |old(calls)|
      ensures if old(refs) == 1 then Drops(calls[|old(calls)|..], usage.Length) else calls == old(calls)
      ensures log == L.Pm(!warned)
    {
      log := [L.Take(L.PmLock)];
      log := log + [L.Use(L.PmRefs)];
      warned := refs == 0;
      if warned {
        log := log + [L.Free(L.PmLock)];
        return;
      }
      log := log + [L.Use(L.PmRefs)];
      refs := refs - 1;
      if refs == 0 {
        for i := 0 to usage.Length
          invariant forall k | 0 <= k < usage.Length :: usage[k] == old(usage[k]) - (if k < i then 1 else 0)
          invariant refs == 0 && calls == old(calls) + UpNoidle(i)
        {
          usage[i] := usage[i] - 1;
          calls := calls + [PutNoidle(i)];
          assert UpNoidle(i + 1) == UpNoidle(i) + [PutNoidle(i)];
        }
        Made(old(calls), UpNoidle(usage.Length));
        InOrder(usage.Length);
      }
      log := log + [L.Free(L.PmLock)];
    }
  }
}
