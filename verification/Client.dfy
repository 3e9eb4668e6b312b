/**
 One client's domain pool and buffers as the ioctl code manipulates them, one call at a
 time: the lazy pool, MEM_CREATE with its error labels, the free callback, and closing.
 Sizes are unbounded here, and the mapped length goes through the code's `int`.
 */
module Client {
  import opened Options
  import R = Refs
  import A = AddressSpace
  import L = Locks
  import M = Machine

  const INT_LIMIT: nat := 0x8000_0000
  const WORD: nat := 0x1_0000_0000

  // A created buffer: bo->domain, bo->mm.start and bo->size.
  datatype Bo = Bo(domain: nat, start: nat, size: nat)

  datatype Holder = Pool(i: nat) | Object(b: nat)

  datatype View = View(lo: nat, hi: nat, slots: seq<Option<nat>>, kref: map<nat, nat>, spaces: map<nat, A.Space>,
                       bos: map<nat, Bo>)

  // What happens around one MEM_CREATE: the address of a new paging domain if one is needed, the
  // address of a domain that another caller installs while this one creates its own, the pages,
  // an interval, the mapping, the handle.
  datatype Answers = Answers(domain: Option<nat>, rival: Option<nat>, pages: bool, start: Option<nat>, maps: bool,
                             handle: bool)

  // ---- the mapped length as an int ----

  function ToInt(length: nat): int {
    var w := length % WORD;
    if w < INT_LIMIT then w else w - WORD
  }

  function Mapped(size: nat): nat {
    A.Pages(size) * A.PAGE
  }

  // The mapped length survives the conversion exactly below 2^31; from there on the test
  // against the requested size always takes the error exit.
  lemma TruncationFails(size: nat)
    ensures size <= Mapped(size)
    ensures Mapped(size) < INT_LIMIT <==> ToInt(Mapped(size)) >= 0 && ToInt(Mapped(size)) >= size
    ensures Mapped(size) < INT_LIMIT ==> ToInt(Mapped(size)) == Mapped(size)
  {
    assert size <= Mapped(size) < size + A.PAGE;
    if Mapped(size) >= WORD {
      assert size > INT_LIMIT;
    }
  }

  // ---- what a sound client looks like ----

  predicate Holds(v: View, h: Holder) {
    match h
    case Pool(i) => i < |v.slots| && v.slots[i].Some?
    case Object(b) => b in v.bos
  }

  function Target(v: View, h: Holder): nat
    requires Holds(v, h)
  {
    if h.Pool? then v.slots[h.i].value else v.bos[h.b].domain
  }

  ghost function Holders(v: View): (r: set<Holder>)
    ensures forall h :: h in r <==> Holds(v, h)
  {
    (set i | 0 <= i < |v.slots| && v.slots[i].Some? :: Pool(i)) + (set b | b in v.bos :: Object(b))
  }

  ghost function Ptr(v: View): map<Holder, nat> {
    map h | h in Holders(v) :: Target(v, h)
  }

  ghost function Refs(v: View): R.Refs<Holder, nat> {
    R.Refs(Ptr(v), v.kref)
  }

  // Counters are exact, address spaces are sound, and their nodes are exactly the buffers.
  ghost predicate Ok(v: View) {
    |v.slots| == M.MAX_DOMAINS && v.spaces.Keys == v.kref.Keys && R.Balanced(Refs(v)) && Layout(v)
  }

  ghost predicate Layout(v: View) {
    && v.hi % A.PAGE == 0
    && (forall a <- v.spaces :: A.Ok(v.spaces[a]))
    && (forall b <- v.bos :: BoOk(v.bos[b], b, v.spaces))
    && (forall a <- v.spaces, b <- v.spaces[a].nodes :: b in v.bos && v.bos[b].domain == a)
  }

  ghost predicate BoOk(bo: Bo, b: nat, spaces: map<nat, A.Space>) {
    && bo.domain in spaces && b in spaces[bo.domain].nodes
    && var n := spaces[bo.domain].nodes[b];
       n.mapped && n.start == bo.start && bo.size == Mapped(n.size)
  }

  // The pool once slot i is filled, with a new empty domain at `a` if it was not.
  function Filled(v: View, i: nat, a: nat): View
    requires i < |v.slots|
  {
    if v.slots[i].Some? then v
    else v.(slots := v.slots[i := Some(a)], kref := v.kref[a := 1], spaces := v.spaces[a := A.Empty(v.lo, v.hi)])
  }

  // A buffer of `size` bytes at `start` in slot i's domain.
  function WithBo(v: View, i: nat, b: nat, start: nat, size: nat): View
    requires i < |v.slots| && v.slots[i].Some? && v.slots[i].value in v.kref && v.slots[i].value in v.spaces
  {
    var a := v.slots[i].value;
    v.(kref := v.kref[a := v.kref[a] + 1],
       spaces := v.spaces[a := A.Map(A.Insert(v.spaces[a], b, start, size), b)],
       bos := v.bos[b := Bo(a, start, Mapped(size))])
  }

  // w is v, except possibly for one new empty domain in slot i.
  predicate OnlyFilled(v: View, w: View, i: nat)
    requires i < |v.slots|
  {
    w == v || (v.slots[i].None? && i < |w.slots| && w.slots[i].Some? && w.slots[i].value !in v.kref
               && w == Filled(v, i, w.slots[i].value))
  }

  // ---- soundness of the two building blocks ----

  lemma SlotLive(v: View, i: nat)
    requires R.Balanced(Refs(v)) && i < |v.slots| && v.slots[i].Some?
    ensures v.slots[i].value in v.kref && v.kref[v.slots[i].value] > 0
  {
    assert Pool(i) in Refs(v).ptr && Refs(v).ptr[Pool(i)] == v.slots[i].value;
  }

  lemma BoLive(v: View, b: nat)
    requires R.Balanced(Refs(v)) && b in v.bos
    ensures v.bos[b].domain in v.kref && v.kref[v.bos[b].domain] > 0
  {
    assert Object(b) in Refs(v).ptr && Refs(v).ptr[Object(b)] == v.bos[b].domain;
  }

  lemma FilledPtr(v: View, i: nat, a: nat)
    requires i < |v.slots| && v.slots[i].None?
    ensures Ptr(Filled(v, i, a)) == Ptr(v)[Pool(i) := a]
  {
    hide Holders;
    var w := Filled(v, i, a);
    assert forall h :: Holds(w, h) <==> Holds(v, h) || h == Pool(i);
  }

  lemma BoPtr(v: View, w: View, b: nat)
    requires b !in v.bos && b in w.bos && w.slots == v.slots && w.bos == v.bos[b := w.bos[b]]
    ensures Ptr(w) == Ptr(v)[Object(b) := w.bos[b].domain]
  {
    hide Holders;
    assert forall h :: Holds(w, h) <==> Holds(v, h) || h == Object(b);
  }

  lemma FilledRefs(v: View, i: nat, a: nat)
    requires R.Balanced(Refs(v)) && i < |v.slots| && v.slots[i].None? && a !in v.kref
    ensures R.Balanced(Refs(Filled(v, i, a)))
  {
    R.NewBalanced(Refs(v), Pool(i), a);
    FilledPtr(v, i, a);
  }

  lemma FilledOk(v: View, i: nat, a: nat)
    requires Ok(v) && i < |v.slots| && (v.slots[i].None? ==> a !in v.kref)
    ensures Ok(Filled(v, i, a))
  {
    hide A.Ok, R.Balanced, Refs;
    if v.slots[i].None? {
      FilledRefs(v, i, a);
      EmptyOk(v.lo, v.hi);
    }
  }

  lemma EmptyOk(lo: nat, hi: nat)
    requires hi % A.PAGE == 0
    ensures A.Ok(A.Empty(lo, hi))
  {
  }

  lemma WithBoRefs(v: View, i: nat, b: nat, start: nat, size: nat)
    requires R.Balanced(Refs(v)) && i < |v.slots| && v.slots[i].Some? && b !in v.bos
    requires v.slots[i].value in v.kref && v.slots[i].value in v.spaces
    ensures R.Balanced(Refs(WithBo(v, i, b, start, size)))
  {
    R.GetBalanced(Refs(v), Object(b), v.slots[i].value);
    BoPtr(v, WithBo(v, i, b, start, size), b);
  }

  lemma WithBoOk(v: View, i: nat, b: nat, start: nat, size: nat)
    requires Ok(v) && i < |v.slots| && v.slots[i].Some? && b !in v.bos
    requires v.slots[i].value in v.kref && v.slots[i].value in v.spaces
    requires A.CanInsert(v.spaces[v.slots[i].value], b, start, size)
    ensures Ok(WithBo(v, i, b, start, size))
  {
    hide A.Ok, A.CanInsert, R.Balanced, Refs;
    var w, a := WithBo(v, i, b, start, size), v.slots[i].value;
    WithBoRefs(v, i, b, start, size);
    A.InsertOk(v.spaces[a], b, start, size);
    A.MapOk(A.Insert(v.spaces[a], b, start, size), b);
    forall d <- w.bos ensures BoOk(w.bos[d], d, w.spaces) {
      assert d != b ==> BoOk(v.bos[d], d, v.spaces);
    }
  }

  // ---- the code ----

  // What MEM_CREATE returns to the client: dma_addr and the mapped size.
  datatype Created = Created(start: nat, size: nat)

  // What happens to one domain's counter and memory on a put.
  function PutIn(v: View, a: nat): View
    requires a in v.kref
  {
    if v.kref[a] <= 1 then v.(kref := v.kref - {a}, spaces := v.spaces - {a})
    else v.(kref := v.kref[a := v.kref[a] - 1])
  }

  // The caller's reference on slot i's domain, on top of everything else.
  function Taken(v: View, i: nat): View
    requires i < |v.slots| && v.slots[i].Some? && v.slots[i].value in v.kref
  {
    var a := v.slots[i].value;
    v.(kref := v.kref[a := v.kref[a] + 1])
  }

  // The domain a caller gets: the slot's, the one installed meanwhile, or its own.
  function Address(v: View, i: nat, ans: Answers): Option<nat>
    requires i < |v.slots|
  {
    if v.slots[i].Some? then v.slots[i]
    else if ans.domain.None? then None
    else if ans.rival.Some? then ans.rival
    else ans.domain
  }

  predicate MapsBo(ans: Answers) {
    ans.pages && ans.start.Some? && ans.maps
  }

  // The buffer's pages and node are gone and its reference is dropped.
  function WithoutBo(v: View, b: nat): View
    requires b in v.bos && v.bos[b].domain in v.kref && v.bos[b].domain in v.spaces
    requires b in v.spaces[v.bos[b].domain].nodes
  {
    var a := v.bos[b].domain;
    PutIn(v.(spaces := v.spaces[a := A.Remove(A.Unmap(v.spaces[a], b, v.bos[b].size), b)]), a).(bos := v.bos - {b})
  }

  function WithoutSlot(v: View, i: nat): View
    requires i < |v.slots| && (v.slots[i].Some? ==> v.slots[i].value in v.kref)
  {
    if v.slots[i].None? then v else PutIn(v.(slots := v.slots[i := None]), v.slots[i].value)
  }

  lemma DropRefs(v: View, w: View, h: Holder)
    requires R.Balanced(Refs(v)) && Holds(v, h) && Target(v, h) in v.kref && w.kref == PutIn(v, Target(v, h)).kref
    requires if h.Pool? then w.slots == v.slots[h.i := None] && w.bos == v.bos
             else w.slots == v.slots && w.bos == v.bos - {h.b}
    ensures R.Balanced(Refs(w))
  {
    hide R.Balanced, Ptr;
    PtrAt(v, h);
    R.PutBalanced(Refs(v), h);
    DropPtr(v, w, h);
    assert Refs(w) == R.Put(Refs(v), h);
  }

  lemma PtrAt(v: View, h: Holder)
    requires Holds(v, h)
    ensures h in Ptr(v) && Ptr(v)[h] == Target(v, h)
  {
  }

  lemma LastHolder(v: View, h: Holder, g: Holder)
    requires R.Balanced(Refs(v)) && Holds(v, h) && Holds(v, g) && Target(v, g) == Target(v, h) && g != h
    ensures Target(v, h) in v.kref && v.kref[Target(v, h)] > 1
  {
    hide R.Balanced, Ptr;
    PtrAt(v, g);
    PtrAt(v, h);
    R.HolderLive(Refs(v), h);
    R.PutBalanced(Refs(v), h);
  }

  lemma DropPtr(v: View, w: View, h: Holder)
    requires Holds(v, h)
    requires if h.Pool? then w.slots == v.slots[h.i := None] && w.bos == v.bos
             else w.slots == v.slots && w.bos == v.bos - {h.b}
    ensures Ptr(w) == Ptr(v) - {h}
  {
    hide Holders;
    assert forall g :: Holds(w, g) <==> Holds(v, g) && g != h;
  }

  lemma WithoutBoOk(v: View, b: nat)
    requires Ok(v) && b in v.bos && v.bos[b].domain in v.kref && v.bos[b].domain in v.spaces
    requires b in v.spaces[v.bos[b].domain].nodes
    ensures Ok(WithoutBo(v, b))
    ensures A.UnmapsAll(v.spaces[v.bos[b].domain], b, v.bos[b].size)
  {
    hide A.Ok, R.Balanced, Refs, A.Unmap, A.Remove, A.UnmapsAll;
    var w, a := WithoutBo(v, b), v.bos[b].domain;
    DropRefs(v, w, Object(b));
    assert BoOk(v.bos[b], b, v.spaces);
    UnmapRemove(v.spaces[a], b, v.bos[b].size);
    forall d <- w.bos ensures BoOk(w.bos[d], d, w.spaces) {
      assert BoOk(v.bos[d], d, v.spaces);
      if v.bos[d].domain == a {
        LastHolder(v, Object(b), Object(d));
      }
    }
  }

  lemma UnmapRemove(sp: A.Space, b: nat, size: nat)
    requires A.Ok(sp) && b in sp.nodes && sp.nodes[b].mapped && size == Mapped(sp.nodes[b].size)
    ensures A.UnmapsAll(sp, b, size)
    ensures var left := A.Remove(A.Unmap(sp, b, size), b); A.Ok(left) && left.nodes == sp.nodes - {b}
  {
    hide A.Ok;
    A.UnmapOk(sp, b);
    A.RemoveOk(A.Unmap(sp, b, size), b);
  }

  lemma WithoutSlotOk(v: View, i: nat)
    requires Ok(v) && i < |v.slots| && v.slots[i].Some? && v.slots[i].value in v.kref
    ensures Ok(WithoutSlot(v, i))
  {
    hide A.Ok, R.Balanced, Refs;
    var w, a := WithoutSlot(v, i), v.slots[i].value;
    DropRefs(v, w, Pool(i));
    forall d <- w.bos ensures BoOk(w.bos[d], d, w.spaces) {
      assert BoOk(v.bos[d], d, v.spaces);
      if v.bos[d].domain == a {
        LastHolder(v, Pool(i), Object(d));
      }
    }
  }

  // Freeing a buffer undoes creating it: allocator, page table and counters are as before.
  lemma FreeUndoesCreate(v: View, i: nat, b: nat, start: nat, size: nat)
    requires Ok(v) && i < |v.slots| && v.slots[i].Some? && b !in v.bos
    requires v.slots[i].value in v.kref && v.slots[i].value in v.spaces
    requires A.CanInsert(v.spaces[v.slots[i].value], b, start, size)
    ensures var w := WithBo(v, i, b, start, size);
      b in w.spaces[v.slots[i].value].nodes && WithoutBo(w, b) == v
  {
    hide A.Ok, R.Balanced, Refs, A.CanInsert, A.Insert, A.Map, A.Unmap, A.Remove;
    OkParts(v, i);
    var a := v.slots[i].value;
    var w := WithBo(v, i, b, start, size);
    Undone(v.spaces[a], b, start, size);
    InsertedNode(v.spaces[a], b, start, size);
    assert WithoutBo(w, b).kref == v.kref;
    assert WithoutBo(w, b).spaces == v.spaces;
    assert WithoutBo(w, b).bos == v.bos;
  }

  // With no buffer and no filled slot, every domain has been freed.
  lemma NothingLeft(v: View)
    requires Ok(v) && v.bos == map[] && forall i | 0 <= i < |v.slots| :: v.slots[i].None?
    ensures v.kref == map[] && v.spaces == map[]
  {
    hide Layout;
    assert Ptr(v) == map[];
    assert forall a :: R.Holders(Ptr(v), a) == {};
  }

  // What a failed call leaves of its domain's space: nothing new, unless the length was lost.
  function LeftBy(sp: A.Space, b: nat, size: nat, ans: Answers): A.Space {
    if MapsBo(ans) && Mapped(size) >= INT_LIMIT then A.Remove(A.Map(A.Insert(sp, b, ans.start.value, size), b), b)
    else sp
  }

  // Does MEM_CREATE get as far as mapping the buffer?
  predicate ReachesMap(v: View, i: nat, ans: Answers)
    requires i < |v.slots|
  {
    Address(v, i, ans).Some? && MapsBo(ans)
  }

  // New domains are at free addresses.
  predicate NewDomains(v: View, ans: Answers) {
    && (ans.domain.Some? ==> ans.domain.value !in v.kref)
    && (ans.rival.Some? ==> ans.rival.value !in v.kref && ans.rival != ans.domain)
  }

  // The kernel's answers respect its contracts: a new domain is at a free address and the
  // allocator hands out a free interval.
  ghost predicate Fair(v: View, i: nat, b: nat, size: nat, ans: Answers)
    requires i < |v.slots|
  {
    && NewDomains(v, ans)
    && (Address(v, i, ans).Some? && ans.start.Some? ==>
          var w := Filled(v, i, Address(v, i, ans).value);
          Address(v, i, ans).value in w.spaces
          && A.CanInsert(w.spaces[Address(v, i, ans).value], b, ans.start.value, size))
  }

  // Dropping the caller's reference leaves the filled pool, whatever became of its spaces.
  lemma PutBack(v: View, i: nat, spaces: map<nat, A.Space>)
    requires Ok(v) && i < |v.slots| && v.slots[i].Some? && v.slots[i].value in v.kref
    ensures PutIn(Taken(v, i).(spaces := spaces), v.slots[i].value) == v.(spaces := spaces)
  {
    hide Layout, R.Balanced;
    SlotLive(v, i);
    var a := v.slots[i].value;
    assert Taken(v, i).kref[a := v.kref[a]] == v.kref;
  }

  // Undoing the insertion, and undoing the mapping too, restores the address space.
  lemma Undone(sp: A.Space, b: nat, start: nat, size: nat)
    requires A.Ok(sp) && A.CanInsert(sp, b, start, size)
    ensures A.Remove(A.Insert(sp, b, start, size), b) == sp
    ensures A.Remove(A.Unmap(A.Map(A.Insert(sp, b, start, size), b), b, Mapped(size)), b) == sp
  {
    A.CreateFreeRoundTrip(sp, b, start, size);
    assert A.Insert(sp, b, start, size).nodes - {b} == sp.nodes;
  }

  // Removing the node without unmapping leaves translations behind.
  lemma Leaks(sp: A.Space, b: nat, start: nat, size: nat)
    requires A.Ok(sp) && A.CanInsert(sp, b, start, size)
    ensures var left := A.Remove(A.Map(A.Insert(sp, b, start, size), b), b);
      left != sp && !A.Ok(left)
  {
    A.InsertOk(sp, b, start, size);
    A.MapFresh(A.Insert(sp, b, start, size), b);
    var p := start / A.PAGE;
    var left := A.Remove(A.Map(A.Insert(sp, b, start, size), b), b);
    assert A.Pages(size) > 0;
    assert p in left.pt && left.pt[p].bo == b && !A.Owns(left, p);
    assert p !in sp.pt;
  }

  lemma NotOnlyFilled(v: View, i: nat, a: nat, left: A.Space)
    requires i < |v.slots| && a in Filled(v, i, a).spaces && (v.slots[i].None? || v.slots[i] == Some(a))
    requires left != Filled(v, i, a).spaces[a]
    ensures !OnlyFilled(v, Filled(v, i, a).(spaces := Filled(v, i, a).spaces[a := left]), i)
  {
  }

  // x is v with the new buffer, in the domain of slot i, and is sound.
  ghost predicate MadeBo(v: View, x: View, i: nat, b: nat, size: nat, ans: Answers)
    requires i < |v.slots| && ReachesMap(v, i, ans)
  {
    var w := Filled(v, i, Address(v, i, ans).value);
    && w.slots[i].value in w.kref && w.slots[i].value in w.spaces
    && x == WithBo(w, i, b, ans.start.value, size) && Ok(x)
  }

  // The space a failed call leaves in its domain: as it was, or with the mapping leaked.
  lemma FailExit(v: View, i: nat, b: nat, size: nat, ans: Answers, end: A.Space)
    requires Ok(v) && i < |v.slots| == M.MAX_DOMAINS && Fair(v, i, b, size, ans) && Address(v, i, ans).Some?
    requires Address(v, i, ans).value in Filled(v, i, Address(v, i, ans).value).spaces
    requires end == LeftBy(Filled(v, i, Address(v, i, ans).value).spaces[Address(v, i, ans).value], b, size, ans)
    ensures var a := Address(v, i, ans).value; var w := Filled(v, i, a);
      OnlyFilled(v, w.(spaces := w.spaces[a := end]), i)
      <==> Mapped(size) < INT_LIMIT || !ReachesMap(v, i, ans)
  {
    hide Ok, A.Ok, A.CanInsert, A.Insert, A.Map, A.Unmap, A.Remove, R.Balanced, Refs;
    var a := Address(v, i, ans).value;
    var w := Filled(v, i, a);
    if ReachesMap(v, i, ans) && Mapped(size) >= INT_LIMIT {
      FilledOk(v, i, a);
      OkParts(w, i);
      Leaks(w.spaces[a], b, ans.start.value, size);
      NotOnlyFilled(v, i, a, end);
    } else {
      assert w.spaces[a := end] == w.spaces;
    }
  }

  lemma NewClientOk(lo: nat, hi: nat)
    requires hi % A.PAGE == 0
    ensures Ok(View(lo, hi, seq(M.MAX_DOMAINS, _ => None), map[], map[], map[]))
  {
    assert Ptr(View(lo, hi, seq(M.MAX_DOMAINS, _ => None), map[], map[], map[])) == map[];
  }

  // A concrete failure: in an empty 4 GiB aperture with every answer good, a buffer of 2^31
  // bytes is refused and its translations stay behind.
  lemma LengthLost()
    ensures var v := View(0, WORD, seq(M.MAX_DOMAINS, _ => None), map[], map[], map[]);
      var ans := Answers(Some(7), None, true, Some(0), true, true);
      var sp := A.Empty(0, WORD);
      && Ok(v) && Fair(v, 0, 0, INT_LIMIT, ans) && ReachesMap(v, 0, ans) && Mapped(INT_LIMIT) == INT_LIMIT
      && LeftBy(sp, 0, INT_LIMIT, ans) != sp
      && !OnlyFilled(v, Filled(v, 0, 7).(spaces := map[7 := LeftBy(sp, 0, INT_LIMIT, ans)]), 0)
  {
    hide A.Ok, A.Map, A.Insert, A.Remove, OnlyFilled, Ok;
    var v := View(0, WORD, seq(M.MAX_DOMAINS, _ => None), map[], map[], map[]);
    var ans := Answers(Some(7), None, true, Some(0), true, true);
    var sp := A.Empty(0, WORD);
    NewClientOk(0, WORD);
    EmptyOk(0, WORD);
    FilledOk(v, 0, 7);
    Leaks(sp, 0, 0, INT_LIMIT);
    FailExit(v, 0, 0, INT_LIMIT, ans, LeftBy(sp, 0, INT_LIMIT, ans));
    assert map[7 := sp][7 := LeftBy(sp, 0, INT_LIMIT, ans)] == map[7 := LeftBy(sp, 0, INT_LIMIT, ans)];
  }

  // The branches a get and a creation take.
  function Second(v: View, i: nat, ans: Answers): bool
    requires i < |v.slots|
  {
    v.slots[i].None? && ans.domain.Some?
  }

  function CreateCall(v: View, i: nat, file: nat, ans: Answers, made: bool): L.Call
    requires i < |v.slots|
  {
    var a := Address(v, i, ans);
    L.MemCreate(file, Second(v, i, ans), ans.rival.Some?, if a.Some? then a.value else 0, a.Some? && ans.pages,
                ans.start.Some? && !made)
  }

  class Pools {
    const file: nat
    const lo: nat
    const hi: nat
    const domains: array<Option<nat>>
    var kref: map<nat, nat>
    var spaces: map<nat, A.Space>
    var bos: map<nat, Bo>

    ghost function Abs(): View
      reads this, domains
    {
      View(lo, hi, domains[..], kref, spaces, bos)
    }

    // rocket_open
    constructor (file: nat, lo: nat, hi: nat)
      requires hi % A.PAGE == 0
      ensures fresh(domains) && Ok(Abs())
      ensures Abs() == View(lo, hi, seq(M.MAX_DOMAINS, _ => None), map[], map[], map[])
    {
      this.file, this.lo, this.hi := file, lo, hi;
      domains := new Option<nat>[M.MAX_DOMAINS](_ => None);
      kref, spaces, bos := map[], map[], map[];
      new;
      assert domains[..] == seq(M.MAX_DOMAINS, _ => None);
    }

    // Another caller installs its domain in an empty slot, and drops its own reference again.
    method RivalInstalls(i: nat, a: nat)
      requires domains.Length == M.MAX_DOMAINS && i < M.MAX_DOMAINS && domains[i].None?
      modifies this`kref, this`spaces, domains
      ensures Abs() == Filled(old(Abs()), i, a)
    {
      kref := kref[a := 1];
      spaces := spaces[a := A.Empty(lo, hi)];
      domains[i] := Some(a);
    }

    // rocket_iommu_domain_get: look up, create outside the lock, look again, and install or
    // discard the candidate.
    method DomainGet(id: int, ans: Answers) returns (r: Option<nat>, ghost log: seq<L.Action>)
      requires domains.Length == M.MAX_DOMAINS && spaces.Keys == kref.Keys
      requires var s := domains[M.Norm(id)]; s.Some? ==> s.value in kref
      requires NewDomains(Abs(), ans)
      modifies this`kref, this`spaces, domains
      ensures r == Address(old(Abs()), M.Norm(id), ans)
      ensures r.Some? ==> domains[if 0 <= id < 16 then id else 0] == r
      ensures forall k | 0 <= k < 16 && k != id && (k == 0 ==> 0 <= id < 16) :: domains[k] == old(domains[k])
      ensures r.None? ==> Abs() == old(Abs())
      ensures r.Some? ==> Abs() == Taken(Filled(old(Abs()), M.Norm(id), r.value), M.Norm(id))
      ensures log == L.Lookups(file, Second(old(Abs()), M.Norm(id), ans), ans.rival.Some?)
    {
      hide L.Guarded, L.Lookups;
      var i := M.Norm(id);
      LookupsAre(file);
      ghost var use := [L.Use(L.Slots(file))];
      ghost var first := L.Guarded(L.DomainsLock(file), use);
      if domains[i].Some? {
        kref := kref[domains[i].value := kref[domains[i].value] + 1];
        return domains[i], first + [];
      }
      if ans.domain.None? {
        return None, first + [];
      }
      ghost var v := Abs();
      var candidate := ans.domain.value;
      kref := kref[candidate := 1];
      spaces := spaces[candidate := A.Empty(lo, hi)];
      if ans.rival.Some? {
        RivalInstalls(i, ans.rival.value);
      }
      if domains[i].Some? {
        r := domains[i];
        kref := kref[r.value := kref[r.value] + 1];
        DomainPut(candidate);
        assert kref == Taken(Filled(v, i, r.value), i).kref;
        assert spaces == Filled(v, i, r.value).spaces;
        log := first + L.Guarded(L.DomainsLock(file), use + []);
        return;
      }
      ghost var installed := [L.Use(L.Slots(file))];
      domains[i] := Some(candidate);
      kref := kref[candidate := kref[candidate] + 1];
      return Some(candidate), first + L.Guarded(L.DomainsLock(file), use + installed);
    }

    // rocket_iommu_domain_put
    method DomainPut(a: nat)
      requires a in kref
      modifies this`kref, this`spaces
      ensures Abs() == PutIn(old(Abs()), a)
    {
      if kref[a] <= 1 {
        kref := kref - {a};
        spaces := spaces - {a};
      } else {
        kref := kref[a := kref[a] - 1];
      }
    }

    // rkopnu_ioctl_mem_create once it has its domain, down to the label that gives it back.
    method MapBo(a: nat, b: nat, size: nat, ans: Answers) returns (r: Option<Created>, ghost log: seq<L.Action>)
      requires a in spaces && A.Ok(spaces[a]) && (ans.start.Some? ==> A.CanInsert(spaces[a], b, ans.start.value, size))
      modifies this`spaces, this`bos
      ensures r.Some? <==> MapsBo(ans) && ans.handle && Mapped(size) < INT_LIMIT
      ensures r.Some? ==>
        && r.value == Created(ans.start.value, Mapped(size))
        && spaces == old(spaces)[a := A.Map(A.Insert(old(spaces)[a], b, ans.start.value, size), b)]
        && bos == old(bos)[b := Bo(a, ans.start.value, Mapped(size))]
      ensures r.None? ==> bos == old(bos) && spaces == old(spaces)[a := LeftBy(old(spaces)[a], b, size, ans)]
      ensures log == L.If(ans.pages, L.Mm(a) + L.If(ans.start.Some? && r.None?, L.Mm(a)))
    {
      hide A.Ok, A.CanInsert, A.Insert, A.Map, A.Unmap, A.Remove;
      TruncationFails(size);
      if !ans.pages {
        return None, [];
      }
      ghost var inserted := L.Guarded(L.MmLock(a), [L.Use(L.Nodes(a))]);
      if ans.start.None? {
        return None, inserted + [];
      }
      var start := ans.start.value;
      Undone(spaces[a], b, start, size);
      InsertedNode(spaces[a], b, start, size);
      spaces := spaces[a := A.Insert(spaces[a], b, start, size)];
      label RemoveNode: {
        var ret: int := -12;
        if ans.maps {
          spaces := spaces[a := A.Map(spaces[a], b)];
          ret := ToInt(Mapped(size));
        }
        if ret < 0 || ret < size {
          break RemoveNode;
        }
        if ans.handle {
          bos := bos[b := Bo(a, start, ret)];
          return Some(Created(start, ret)), inserted + [];
        }
        spaces := spaces[a := A.Unmap(spaces[a], b, ret)];
      }
      ghost var removed := L.Guarded(L.MmLock(a), [L.Use(L.Nodes(a))]);
      spaces := spaces[a := A.Remove(spaces[a], b)];
      return None, inserted + removed;
    }

    // rkopnu_ioctl_mem_create: all or nothing, exactly if the rounded size stays below 2^31
    // or the mapping is not reached.
    method MemCreate(b: nat, id: int, size: nat, ans: Answers) returns (r: Option<Created>, ghost log: seq<L.Action>)
      requires Ok(Abs()) && b !in bos && Fair(Abs(), M.Norm(id), b, size, ans)
      modifies this`kref, this`spaces, this`bos, domains
      ensures r.Some? <==> ReachesMap(old(Abs()), M.Norm(id), ans) && ans.handle && Mapped(size) < INT_LIMIT
      ensures r.Some? ==>
        r.value == Created(ans.start.value, Mapped(size)) && MadeBo(old(Abs()), Abs(), M.Norm(id), b, size, ans)
      ensures r.Some? ==> b in bos && domains[if 0 <= id < 16 then id else 0] == Some(bos[b].domain)
      ensures r.None? ==>
        (OnlyFilled(old(Abs()), Abs(), M.Norm(id))
         <==> Mapped(size) < INT_LIMIT || !ReachesMap(old(Abs()), M.Norm(id), ans))
      ensures log == L.Script(CreateCall(old(Abs()), M.Norm(id), file, ans, r.Some?))
    {
      hide Ok, A.Ok, A.CanInsert, A.Insert, A.Map, A.Unmap, A.Remove, R.Balanced, Refs, OnlyFilled, L.Script, L.Lookups,
        L.Mm, L.If, CreateCall, Second;
      ghost var v := Abs();
      var i := M.Norm(id);
      OkParts(v, i);
      var got, lookups := DomainGet(id, ans);
      if got.None? {
        Unfilled(v, i);
        CreateScript(v, i, file, ans, false);
        return None, lookups + [];
      }
      var a := got.value;
      ghost var w := Filled(v, i, a);
      FilledOk(v, i, a);
      OkParts(w, i);
      ghost var nodes;
      r, nodes := MapBo(a, b, size, ans);
      log := lookups + nodes;
      CreateScript(v, i, file, ans, r.Some?);
      if r.Some? {
        WithBoOk(w, i, b, ans.start.value, size);
        return;
      }
      PutBack(w, i, spaces);
      DomainPut(a);
      FailExit(v, i, b, size, ans, spaces[a]);
    }

    // rocket_gem_bo_free; warned is drm_WARN_ON of a short unmap.
    method BoFree(b: nat) returns (warned: bool, ghost log: seq<L.Action>)
      requires Ok(Abs()) && b in bos
      modifies this`kref, this`spaces, this`bos
      ensures !warned && Ok(Abs())
      ensures bos == old(bos) - {b} && domains[..] == old(domains[..])
      ensures var a := old(bos)[b].domain;
        a in old(kref) && a in old(spaces) && b in old(spaces)[a].nodes && Abs() == WithoutBo(old(Abs()), b)
      ensures log == L.Script(L.BoFree(old(bos)[b].domain))
    {
      hide A.Ok, R.Balanced, Refs, A.Unmap, A.Remove, Layout;
      ghost var v := Abs();
      var bo := bos[b];
      BoParts(v, b);
      WithoutBoOk(v, b);
      warned := !A.UnmapsAll(spaces[bo.domain], b, bo.size);
      spaces := spaces[bo.domain := A.Unmap(spaces[bo.domain], b, bo.size)];
      log := L.Guarded(L.MmLock(bo.domain), [L.Use(L.Nodes(bo.domain))]);
      spaces := spaces[bo.domain := A.Remove(spaces[bo.domain], b)];
      assert spaces == v.spaces[bo.domain := A.Remove(A.Unmap(v.spaces[bo.domain], b, bo.size), b)];
      DomainPut(bo.domain);
      bos := bos - {b};
    }

    // MEM_CREATE followed by the last free: whatever the answers, the client is left as it
    // was, but for possibly one new empty domain in its slot.
    method CreateThenFree(b: nat, id: int, size: nat, ans: Answers)
      requires Ok(Abs()) && b !in bos && Fair(Abs(), M.Norm(id), b, size, ans) && Mapped(size) < INT_LIMIT
      modifies this`kref, this`spaces, this`bos, domains
      ensures OnlyFilled(old(Abs()), Abs(), M.Norm(id)) && bos == old(bos)
    {
      hide Ok, A.Ok, A.CanInsert, A.Insert, A.Map, A.Unmap, A.Remove, R.Balanced, Refs, WithBo, WithoutBo;
      ghost var v := Abs();
      ghost var i := M.Norm(id);
      OkParts(v, i);
      var r, made := MemCreate(b, id, size, ans);
      if r.Some? {
        ghost var w := Filled(v, i, Address(v, i, ans).value);
        FilledOk(v, i, Address(v, i, ans).value);
        FreeUndoesCreate(w, i, b, ans.start.value, size);
        assert b in bos by { CreatedIsThere(w, i, b, ans.start.value, size); }
        var warned, freed := BoFree(b);
      }
    }

    // rocket_iommu_domains_close, once DRM has released the file's buffers; warned is
    // drm_mm_takedown finding nodes.
    method DomainsClose() returns (warned: bool, ghost log: seq<L.Action>)
      requires Ok(Abs()) && bos == map[]
      modifies this`kref, this`spaces, domains
      ensures !warned && Ok(Abs())
      ensures kref == map[] && spaces == map[] && forall i | 0 <= i < domains.Length :: domains[i].None?
      ensures log == L.Script(L.DomainsClose(file, old(domains[..])))
    {
      hide R.Balanced, Refs, A.Ok, Layout, L.Clears;
      warned := false;
      log := [];
      NoClears(file);
      ghost var before := domains[..];
      var i := 0;
      while i < M.MAX_DOMAINS
        invariant 0 <= i <= M.MAX_DOMAINS
        invariant !warned && Ok(Abs()) && bos == map[]
        invariant forall k | 0 <= k < i :: domains[k].None?
        invariant |before| == M.MAX_DOMAINS && forall k | i <= k < M.MAX_DOMAINS :: domains[k] == before[k]
        invariant log == L.Clears(file, before[..i])
      {
        ghost var v := Abs();
        OkParts(v, i);
        var domain := domains[i];
        assert before[..i + 1] == before[..i] + [domain];
        ClearsMore(file, before[..i], domain);
        ghost var cleared: seq<L.Action> := [];
        if domain.Some? {
          cleared := [L.Use(L.Slots(file))] + [L.Use(L.Nodes(domain.value))];
          WithoutSlotOk(v, i);
          NoNodes(v, domain.value);
          domains[i] := None;
          assert domains[..] == v.slots[i := None];
          warned := warned || spaces[domain.value].nodes != map[];
          DomainPut(domain.value);
          assert Abs() == WithoutSlot(v, i);
        }
        log := log + ([L.Use(L.Slots(file))] + cleared);
        i := i + 1;
      }
      assert before[..M.MAX_DOMAINS] == before;
      NothingLeft(Abs());
    }
  }

  lemma BoParts(v: View, b: nat)
    requires Ok(v) && b in v.bos
    ensures v.bos[b].domain in v.kref && v.bos[b].domain in v.spaces && b in v.spaces[v.bos[b].domain].nodes
    ensures b in A.Unmap(v.spaces[v.bos[b].domain], b, v.bos[b].size).nodes
  {
    hide A.Ok, R.Balanced;
    BoLive(v, b);
    assert BoOk(v.bos[b], b, v.spaces);
  }

  lemma CreatedIsThere(v: View, i: nat, b: nat, start: nat, size: nat)
    requires i < |v.slots| && v.slots[i].Some? && v.slots[i].value in v.kref && v.slots[i].value in v.spaces
    ensures b in WithBo(v, i, b, start, size).bos
  {
  }

  // The three ways through rocket_iommu_domain_get.
  lemma LookupsAre(file: nat)
    ensures var use := [L.Use(L.Slots(file))]; var first := L.Guarded(L.DomainsLock(file), use);
      && L.Lookups(file, false, true) == first + [] == L.Lookups(file, false, false)
      && L.Lookups(file, true, true) == first + L.Guarded(L.DomainsLock(file), use + [])
      && L.Lookups(file, true, false) == first + L.Guarded(L.DomainsLock(file), use + use)
  {
  }

  lemma NoNodes(v: View, a: nat)
    requires Ok(v) && v.bos == map[] && a in v.spaces
    ensures v.spaces[a].nodes == map[]
  {
    hide A.Ok, R.Balanced, Refs, Ptr;
    assert v.spaces[a].nodes.Keys <= v.bos.Keys;
  }

  lemma NoClears(file: nat)
    ensures L.Clears(file, []) == []
  {
  }

  // The script of a creation: none past the lookups without a domain, else what MapBo does.
  lemma CreateScript(v: View, i: nat, file: nat, ans: Answers, made: bool)
    requires i < |v.slots|
    ensures var lookups, a := L.Lookups(file, Second(v, i, ans), ans.rival.Some?), Address(v, i, ans);
      && (a.None? ==> L.Script(CreateCall(v, i, file, ans, made)) == lookups + [])
      && (a.Some? ==> L.Script(CreateCall(v, i, file, ans, made))
                      == lookups + L.If(ans.pages, L.Mm(a.value) + L.If(ans.start.Some? && !made, L.Mm(a.value))))
  {
  }

  lemma ClearsMore(file: nat, domains: seq<Option<nat>>, d: Option<nat>)
    ensures L.Clears(file, domains + [d]) == L.Clears(file, domains) + L.ClearSlot(file, d)
  {
    assert (domains + [d])[..|domains|] == domains;
  }

  lemma Unfilled(v: View, i: nat)
    requires i < |v.slots|
    ensures OnlyFilled(v, v, i)
  {
  }

  lemma OkParts(v: View, i: nat)
    requires Ok(v) && i < M.MAX_DOMAINS
    ensures |v.slots| == M.MAX_DOMAINS && v.spaces.Keys == v.kref.Keys
    ensures forall a <- v.spaces :: A.Ok(v.spaces[a])
    ensures v.slots[i].Some? ==>
      v.slots[i].value in v.kref && v.slots[i].value in v.spaces && v.kref[v.slots[i].value] > 0
  {
    hide A.Ok, R.Balanced;
    if v.slots[i].Some? {
      SlotLive(v, i);
    }
  }

  lemma InsertedNode(sp: A.Space, b: nat, start: nat, size: nat)
    ensures b in A.Insert(sp, b, start, size).nodes
    ensures b in A.Map(A.Insert(sp, b, start, size), b).nodes
    ensures b in A.Unmap(A.Map(A.Insert(sp, b, start, size), b), b, Mapped(size)).nodes
  {
  }
}
