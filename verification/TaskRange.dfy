/**
 Which core a SUBMIT goes to, which subcore_task[] slot that core reads, and which task range
 it programs, with the C types' 32-bit arithmetic.
 */
module TaskRange {
  import opened Options

  const WORD: nat := 0x1_0000_0000
  const HALF: nat := 0x8000_0000

  predicate U32(x: int) {
    0 <= x < WORD
  }

  // The int a 32-bit value becomes, and the u32 an int becomes in a comparison with one.
  function ToInt(x: int): int {
    var w := x % WORD;
    if w < HALF then w else w - WORD
  }

  function ToU32(x: int): nat {
    x % WORD
  }

  datatype Subcore = Subcore(start: nat, number: nat)

  // ---- which core ----

  // rknpu_wait_core_index
  function WaitCoreIndex(mask: nat): nat {
    if mask == 2 then 1 else if mask == 4 then 2 else 0
  }

  // hweight32(mask & 7)
  function CoreCount(mask: nat): nat {
    mask % 2 + mask / 2 % 2 + mask / 4 % 2
  }

  // The core index SUBMIT commits the job to.
  method SubmitCore(mask: nat, numCores: nat) returns (ci: nat)
    requires 0 < numCores
    ensures ci < numCores && ci < 3
    ensures ci == 1 <==> mask == 2 && numCores > 1
    ensures ci == 2 <==> mask == 4 && numCores > 2
  {
    ci := WaitCoreIndex(mask);
    if ci >= numCores {
      ci := 0;
    }
  }

  // rocket_job_open: each per-core entity gets that core's scheduler and no other; a core's
  // scheduler is identified by its address.
  method JobOpen(scheds: seq<nat>) returns (entities: array<Option<nat>>)
    ensures fresh(entities) && entities.Length == 3
    ensures forall i | 0 <= i < 3 :: entities[i] == if i < |scheds| then Some(scheds[i]) else None
  {
    entities := new Option<nat>[3](_ => None);
    var core := 0;
    while core < |scheds| && core < 3
      invariant 0 <= core <= |scheds| && core <= 3
      invariant forall i | 0 <= i < 3 :: entities[i] == if i < core then Some(scheds[i]) else None
    {
      entities[core] := Some(scheds[core]);
      core := core + 1;
    }
  }

  // sched_to_core: the first core whose scheduler it is.
  method SchedToCore(scheds: seq<nat>, sched: nat) returns (r: Option<nat>)
    ensures r.None? <==> sched !in scheds
    ensures r.Some? ==> r.value < |scheds| && scheds[r.value] == sched && sched !in scheds[..r.value]
  {
    var core := 0;
    while core < |scheds|
      invariant 0 <= core <= |scheds| && sched !in scheds[..core]
    {
      if scheds[core] == sched {
        return Some(core);
      }
      core := core + 1;
    }
    return None;
  }

  // Whatever the mask, the scheduler that runs the job belongs to the core chosen at submit:
  // SUBMIT picks an entity, the entity has one scheduler, and that leads back to the core.
  method CoreRoundTrip(scheds: seq<nat>, mask: nat) returns (submitted: nat, ran: Option<nat>)
    requires 0 < |scheds| && forall i, k | 0 <= i < k < |scheds| :: scheds[i] != scheds[k]
    ensures ran == Some(submitted)
    ensures submitted < |scheds| && submitted < 3
  {
    var entities := JobOpen(scheds);
    submitted := SubmitCore(mask, |scheds|);
    var sched := entities[submitted];
    ran := SchedToCore(scheds, sched.value);
  }

  // ---- which slot ----

  // rocket_job_hw_submit on core ci, for a job that uses `cores` cores
  function SlotIndex(ci: nat, cores: nat): nat {
    if cores == 3 then ci + 2 else ci
  }

  // The slot exists on every core, and for the cores SUBMIT picks: CORE1 and CORE2 alone read
  // their own slots, all three cores together read slot 2, anything else slot 0.
  lemma SlotInRange(ci: nat, mask: nat, numCores: nat)
    requires ci < 3
    ensures SlotIndex(ci, CoreCount(mask)) < 5
    ensures ci == (if WaitCoreIndex(mask) < numCores then WaitCoreIndex(mask) else 0) ==>
      SlotIndex(ci, CoreCount(mask)) == if mask % 8 == 7 then 2 else if ci > 0 then mask / 2 else 0
  {
    assert mask / 4 % 2 == mask % 8 / 4 && mask / 2 % 2 == mask % 4 / 2;
  }

  // ---- which range ----

  // The task range rocket_job_hw_submit programs for a job declared as [start, start + number):
  // the slot's, unless it is empty or seems to leave the declared range.
  function Refused(slot: Subcore, start: nat, number: nat): bool {
    slot.number == 0 || slot.start < start || ToU32(slot.start + slot.number) > ToU32(start + number)
  }

  function Range(slot: Subcore, start: nat, number: nat): Subcore {
    if Refused(slot, start, number) then Subcore(start, number) else slot
  }

  // A slot is used if it is non-empty, starts no earlier than the job's range, and ends no later,
  // where ends from 2^32 on count from there again.
  predicate Used(slot: Subcore, start: nat, number: nat) {
    var end, limit := slot.start + slot.number, start + number;
    && 0 < slot.number && start <= slot.start
    && (if end < 0x1_0000_0000 then end else end - 0x1_0000_0000)
       <= (if limit < 0x1_0000_0000 then limit else limit - 0x1_0000_0000)
  }

  // Which slots are used, when the job's own range does not wrap: every non-empty one inside it;
  // none that is empty, starts earlier, or ends past it without wrapping itself.
  lemma SlotsUsed(slot: Subcore, start: nat, number: nat)
    requires slot.start < 0x1_0000_0000 && slot.number < 0x1_0000_0000 && start + number < 0x1_0000_0000
    ensures 0 < slot.number && start <= slot.start && slot.start + slot.number <= start + number ==>
      Range(slot, start, number) == slot
    ensures slot.number == 0 || slot.start < start
            || start + number < slot.start + slot.number < 0x1_0000_0000 ==>
      Range(slot, start, number) == Subcore(start, number)
  {
    UsedExactly(slot, start, number);
  }

  lemma UsedExactly(slot: Subcore, start: nat, number: nat)
    requires U32(slot.start) && U32(slot.number) && U32(start) && U32(number)
    ensures Range(slot, start, number) == if Used(slot, start, number) then slot else Subcore(start, number)
  {
    Wrapped(slot.start + slot.number);
    Wrapped(start + number);
  }

  lemma Wrapped(x: nat)
    requires x < 0x2_0000_0000
    ensures ToU32(x) == if x < 0x1_0000_0000 then x else x - 0x1_0000_0000
  {
  }

  lemma Elements(r: Subcore)
    requires U32(r.start) && U32(r.number)
    ensures 0 < r.number && r.start + r.number <= 0x8000_0000 ==>
      ToInt(r.start) == r.start && ToInt(r.start + r.number - 1) == r.start + r.number - 1
    ensures r.start >= 0x8000_0000 ==> ToInt(r.start) == r.start - 0x1_0000_0000
  {
  }

  // The two array elements that are read are the ends of a non-empty range inside the declared one.
  predicate InDeclared(r: Subcore, first: int, last: int, start: nat, number: nat) {
    && 0 < r.number && start <= r.start && r.start + r.number <= start + number
    && first == r.start && last == r.start + r.number - 1
  }

  // ts and tn are ints, compared with u32 sums and used as signed array indices.
  method ChooseRange(subcore: seq<Subcore>, cores: nat, ci: nat, start: nat, number: nat)
    returns (r: Subcore, first: int, last: int)
    requires |subcore| == 5 && ci < 3 && U32(start) && U32(number)
    requires forall k | 0 <= k < 5 :: U32(subcore[k].start) && U32(subcore[k].number)
    ensures r == Range(subcore[SlotIndex(ci, cores)], start, number)
    ensures first == ToInt(r.start) && last == ToInt(r.start + r.number - 1)
    // in plain arithmetic: the slot read, when it is used, and the elements read
    ensures var slot := subcore[if cores == 3 then ci + 2 else ci];
      && (Used(slot, start, number) ==> r == slot)
      && (!Used(slot, start, number) ==> r.start == start && r.number == number)
    ensures 0 < r.number && r.start + r.number <= 0x8000_0000 ==> first == r.start && last == r.start + r.number - 1
    ensures r.start >= 0x8000_0000 ==> first == r.start - 0x1_0000_0000
  {
    hide ToInt, ToU32, Used, Range, U32;
    var slot := subcore[if cores == 3 then ci + 2 else ci];
    UsedExactly(slot, start, number);
    Elements(Range(slot, start, number));
    var ts, tn := ToInt(slot.start), ToInt(slot.number);
    Sums(slot.start, slot.number);
    Sums(start, number);
    RangeIs(slot, start, number);
    if tn == 0 || ToU32(ts) < start || ToU32(ToInt(ts + tn)) > ToU32(start + number) {
      ts := ToInt(start);
      tn := ToInt(number);
    }
    r := Subcore(ToU32(ts), ToU32(tn));
    first := ts;
    last := ToInt(ToInt(ts + tn) - 1);
  }

  // ToInt only depends on the low 32 bits.
  lemma SameWord(x: int, k: int)
    ensures ToInt(x + k * WORD) == ToInt(x) && ToU32(x + k * WORD) == ToU32(x)
  {
    assert (x + k * WORD) % WORD == x % WORD by { ModShift(x, k); }
  }

  lemma ModShift(x: int, k: int)
    ensures (x + k * WORD) % WORD == x % WORD
  {
    var q := x / WORD;
    assert x == q * WORD + x % WORD;
    assert x + k * WORD == (q + k) * WORD + x % WORD;
  }

  // How many words ToInt takes off.
  function Turns(x: int): int {
    -(x / WORD) - if x % WORD < HALF then 0 else 1
  }

  lemma Turned(x: int)
    ensures ToInt(x) == x + Turns(x) * WORD
  {
  }

  lemma SmallWord(a: nat)
    requires U32(a)
    ensures ToU32(a) == a && (ToInt(a) == 0 <==> a == 0)
  {
  }

  // Going through int changes neither a value, nor a sum, nor the element before a sum's end.
  lemma Sums(a: nat, b: nat)
    requires U32(a) && U32(b)
    ensures ToU32(ToInt(a)) == a && ToU32(ToInt(b)) == b && (ToInt(b) == 0 <==> b == 0)
    ensures ToU32(ToInt(ToInt(a) + ToInt(b))) == ToU32(a + b)
    ensures ToInt(ToInt(ToInt(a) + ToInt(b)) - 1) == ToInt(a + b - 1)
  {
    SmallWord(a);
    SmallWord(b);
    hide ToInt, ToU32, Turns;
    Turned(a);
    Turned(b);
    SameWord(a, Turns(a));
    SameWord(b, Turns(b));
    SumWord(a, b);
  }

  lemma SumWord(a: nat, b: nat)
    ensures ToU32(ToInt(ToInt(a) + ToInt(b))) == ToU32(a + b)
    ensures ToInt(ToInt(ToInt(a) + ToInt(b)) - 1) == ToInt(a + b - 1)
  {
    hide ToInt, ToU32, Turns;
    var t := ToInt(a) + ToInt(b);
    var k := Turns(a) + Turns(b) + Turns(t);
    Turned(a);
    Turned(b);
    Turned(t);
    assert ToInt(t) == a + b + k * WORD by { Regroup(a, b, Turns(a), Turns(b), Turns(t)); }
    SameWord(a + b, k);
    SameWord(a + b - 1, k);
  }

  lemma Regroup(a: int, b: int, x: int, y: int, z: int)
    ensures (a + x * WORD) + (b + y * WORD) + z * WORD == a + b + (x + y + z) * WORD
  {
  }

  lemma RangeIs(slot: Subcore, start: nat, number: nat)
    ensures Range(slot, start, number) ==
      if slot.number == 0 || slot.start < start || ToU32(slot.start + slot.number) > ToU32(start + number)
      then Subcore(start, number) else slot
  {
  }

  // For all 32-bit values: the programmed range is non-empty, inside the declared one and read
  // at its two ends if and only if it ends at or below 2^31, where array indices stop being
  // ints, and a slot that is not refused really ends inside the declared range.
  lemma RangeExact(slot: Subcore, start: nat, number: nat)
    requires U32(slot.start) && U32(slot.number) && U32(start) && U32(number) && 0 < number
    ensures var r := Range(slot, start, number);
      InDeclared(r, ToInt(r.start), ToInt(r.start + r.number - 1), start, number)
      <==> r.start + r.number <= HALF
           && (!Used(slot, start, number) || slot.start + slot.number <= start + number)
  {
    var r := Range(slot, start, number);
    UsedExactly(slot, start, number);
    Ends(r);
  }

  // The two indices are right exactly if the range ends at or below 2^31.
  lemma Ends(r: Subcore)
    requires U32(r.start) && U32(r.number) && 0 < r.number
    ensures r.start + r.number <= HALF
       <==> ToInt(r.start) == r.start && ToInt(r.start + r.number - 1) == r.start + r.number - 1
  {
    var e := r.start + r.number - 1;
    assert ToInt(e) == if e < HALF then e else if e < WORD then e - WORD else ToInt(e - WORD);
  }

  // With the job's own range up to 2^31 the only danger is a slot whose sum wraps past 2^32
  // into the declared range.
  lemma RangeSafe(slot: Subcore, start: nat, number: nat)
    requires U32(slot.start) && U32(slot.number) && 0 < number && start + number <= HALF
    ensures var r := Range(slot, start, number);
      InDeclared(r, ToInt(r.start), ToInt(r.start + r.number - 1), start, number)
      <==> slot.start + slot.number < WORD || slot.start < start || slot.start + slot.number - WORD > start + number
  {
    RangeExact(slot, start, number);
    var sum := slot.start + slot.number;
    assert ToU32(sum) == if sum < WORD then sum else sum - WORD;
  }

  // Falling back does not help a job range beyond 2^31.
  lemma FallbackSafe(slot: Subcore, start: nat, number: nat)
    requires slot.number == 0 && U32(slot.start) && U32(start) && U32(number) && 0 < number
    ensures var r := Range(slot, start, number);
      InDeclared(r, ToInt(r.start), ToInt(r.start + r.number - 1), start, number) <==> start + number <= HALF
  {
    RangeExact(slot, start, number);
  }

  // A slot that the range check accepts although it leaves the declared range.
  lemma WrappingSlotAccepted()
    ensures var slot := Subcore(0xFFFF_FFF0, 0x11); var r := Range(slot, 0, 4);
      r == slot && !InDeclared(r, ToInt(r.start), ToInt(r.start + r.number - 1), 0, 4)
  {
  }
}
