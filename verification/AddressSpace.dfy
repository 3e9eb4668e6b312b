/**
 One IOMMU domain's address space: the drm_mm allocator (`nodes`, by buffer) and the page
 table (`pt`, IOVA page -> physical frame).  A node reserves the size the client asked for,
 the page table maps that size rounded up to pages.
 */
module AddressSpace {

  const PAGE: nat := 4096

  // Page `page` of buffer object `bo`.
  datatype Frame = Frame(bo: nat, page: nat)

  // mapped records whether the buffer's pages are in the page table.
  datatype Node = Node(start: nat, size: nat, mapped: bool)

  // [lo, hi) is the aperture.
  datatype Space = Space(lo: nat, hi: nat, nodes: map<nat, Node>, pt: map<nat, Frame>)

  function Pages(size: nat): nat {
    (size + PAGE - 1) / PAGE
  }

  function FirstPage(n: Node): nat {
    n.start / PAGE
  }

  // IOVA page that translates page k of node n.
  function Iova(n: Node, k: nat): nat {
    FirstPage(n) + k
  }

  function PageRange(first: nat, count: nat): (r: set<nat>)
    ensures forall p: nat :: p in r <==> first <= p < first + count
  {
    if count == 0 then {} else PageRange(first, count - 1) + {first + count - 1}
  }

  predicate Apart(a: Node, b: Node) {
    a.start + a.size <= b.start || b.start + b.size <= a.start
  }

  predicate InAperture(sp: Space, n: Node) {
    sp.lo <= n.start && n.start + n.size <= sp.hi && n.start % PAGE == 0 && n.size > 0
  }

  ghost predicate NodesOk(sp: Space) {
    && sp.hi % PAGE == 0
    && (forall b <- sp.nodes :: InAperture(sp, sp.nodes[b]))
    && (forall b <- sp.nodes, d <- sp.nodes :: b != d ==> Apart(sp.nodes[b], sp.nodes[d]))
  }

  // The page table translates exactly the mapped buffers, each to its own frames.
  ghost predicate TableExact(sp: Space) {
    && (forall p <- sp.pt :: Owns(sp, p))
    && (forall b <- sp.nodes, k: nat :: sp.nodes[b].mapped && k < Pages(sp.nodes[b].size) ==>
          Iova(sp.nodes[b], k) in sp.pt && sp.pt[Iova(sp.nodes[b], k)] == Frame(b, k))
  }

  ghost predicate Owns(sp: Space, p: nat)
    requires p in sp.pt
  {
    var f := sp.pt[p];
    && f.bo in sp.nodes && sp.nodes[f.bo].mapped
    && f.page < Pages(sp.nodes[f.bo].size) && p == Iova(sp.nodes[f.bo], f.page)
  }

  ghost predicate Ok(sp: Space) {
    NodesOk(sp) && TableExact(sp)
  }

  // ---- operations ----

  // drm_mm_insert_node_generic may hand out any free page-aligned interval.
  predicate CanInsert(sp: Space, b: nat, start: nat, size: nat) {
    var n := Node(start, size, false);
    b !in sp.nodes && InAperture(sp, n) && forall d <- sp.nodes :: Apart(sp.nodes[d], n)
  }

  function Insert(sp: Space, b: nat, start: nat, size: nat): Space {
    sp.(nodes := sp.nodes[b := Node(start, size, false)])
  }

  // iommu_map_sgtable of the whole buffer at its node.
  function Map(sp: Space, b: nat): Space
    requires b in sp.nodes
  {
    var n := sp.nodes[b];
    var first := FirstPage(n);
    sp.(nodes := sp.nodes[b := n.(mapped := true)],
        pt := sp.pt + map p | p in PageRange(first, Pages(n.size)) :: Frame(b, p - first))
  }

  // iommu_unmap(start, length) for a page-multiple length.
  function Unmap(sp: Space, b: nat, length: nat): Space
    requires b in sp.nodes
  {
    var n := sp.nodes[b];
    sp.(nodes := sp.nodes[b := n.(mapped := false)],
        pt := sp.pt - PageRange(FirstPage(n), length / PAGE))
  }

  // iommu_unmap returns the full length iff every page of the range was present.
  predicate UnmapsAll(sp: Space, b: nat, length: nat)
    requires b in sp.nodes
  {
    forall p <- PageRange(FirstPage(sp.nodes[b]), length / PAGE) :: p in sp.pt
  }

  function Remove(sp: Space, b: nat): Space {
    sp.(nodes := sp.nodes - {b})
  }

  function Empty(lo: nat, hi: nat): Space {
    Space(lo, hi, map[], map[])
  }

  // ---- properties ----

  // The arithmetic heart: unrounded disjoint intervals with aligned starts stay disjoint
  // and inside an aligned aperture once rounded up to pages.
  lemma RoundingIsSafe(sp: Space, a: Node, b: Node)
    requires sp.hi % PAGE == 0 && InAperture(sp, a) && InAperture(sp, b)
    ensures a.start + a.size <= b.start ==> FirstPage(a) + Pages(a.size) <= FirstPage(b)
    ensures (FirstPage(a) + Pages(a.size)) * PAGE <= sp.hi && sp.lo <= FirstPage(a) * PAGE
  {
    assert FirstPage(a) * PAGE == a.start && FirstPage(b) * PAGE == b.start;
    assert Pages(a.size) * PAGE < a.size + PAGE;
    var last := sp.hi / PAGE;
    assert last * PAGE == sp.hi;
  }

  // Mapped ranges of distinct buffers of one domain are disjoint and inside the aperture.
  lemma MappedRangesDisjoint(sp: Space, b: nat, d: nat)
    requires NodesOk(sp) && b in sp.nodes && d in sp.nodes
    ensures b != d ==> forall k: nat, m: nat :: k < Pages(sp.nodes[b].size) && m < Pages(sp.nodes[d].size) ==>
      Iova(sp.nodes[b], k) != Iova(sp.nodes[d], m)
    ensures forall k: nat :: k < Pages(sp.nodes[b].size) ==>
      sp.lo <= Iova(sp.nodes[b], k) * PAGE && (Iova(sp.nodes[b], k) + 1) * PAGE <= sp.hi
  {
    var n, m := sp.nodes[b], sp.nodes[d];
    RoundingIsSafe(sp, n, m);
    RoundingIsSafe(sp, m, n);
    assert b != d ==> Apart(n, m);
  }

  lemma InsertOk(sp: Space, b: nat, start: nat, size: nat)
    requires Ok(sp) && CanInsert(sp, b, start, size)
    ensures Ok(Insert(sp, b, start, size))
  {
    var t := Insert(sp, b, start, size);
    forall p | p in t.pt ensures Owns(t, p) {
      assert Owns(sp, p);
    }
  }

  // Mapping a freshly inserted node overwrites no live translation.
  lemma MapFresh(sp: Space, b: nat)
    requires Ok(sp) && b in sp.nodes && !sp.nodes[b].mapped
    ensures forall p | FirstPage(sp.nodes[b]) <= p < FirstPage(sp.nodes[b]) + Pages(sp.nodes[b].size) :: p !in sp.pt
  {
    var n := sp.nodes[b];
    forall p <- sp.pt ensures !(FirstPage(n) <= p < FirstPage(n) + Pages(n.size)) {
      assert Owns(sp, p);
      MappedRangesDisjoint(sp, sp.pt[p].bo, b);
      assert forall k: nat :: k < Pages(n.size) ==> p != Iova(n, k);
      assert FirstPage(n) <= p ==> p == FirstPage(n) + (p - FirstPage(n));
    }
  }

  lemma MapNodesOk(sp: Space, b: nat, m: bool)
    requires NodesOk(sp) && b in sp.nodes
    ensures NodesOk(sp.(nodes := sp.nodes[b := sp.nodes[b].(mapped := m)]))
  {
  }

  lemma MapOk(sp: Space, b: nat)
    requires Ok(sp) && b in sp.nodes && !sp.nodes[b].mapped
    ensures Ok(Map(sp, b))
  {
    MapFresh(sp, b);
    MapNodesOk(sp, b, true);
    var t := Map(sp, b);
    assert NodesOk(t);
    forall p | p in t.pt ensures Owns(t, p) {
      if p in sp.pt {
        assert Owns(sp, p);
      }
    }
    forall d, k: nat | d in t.nodes && t.nodes[d].mapped && k < Pages(t.nodes[d].size)
      ensures Iova(t.nodes[d], k) in t.pt && t.pt[Iova(t.nodes[d], k)] == Frame(d, k)
    {
      if d != b {
        assert Iova(sp.nodes[d], k) in sp.pt;
      }
    }
  }

  lemma UnmapOk(sp: Space, b: nat)
    requires Ok(sp) && b in sp.nodes && sp.nodes[b].mapped
    ensures UnmapsAll(sp, b, Pages(sp.nodes[b].size) * PAGE)
    ensures Ok(Unmap(sp, b, Pages(sp.nodes[b].size) * PAGE))
  {
    var n := sp.nodes[b];
    var first, count := FirstPage(n), Pages(n.size);
    var t := Unmap(sp, b, count * PAGE);
    MapNodesOk(sp, b, false);
    assert NodesOk(t);
    forall p | first <= p < first + count ensures p in sp.pt && sp.pt[p].bo == b {
      assert p == Iova(n, p - first);
    }
    forall p | p in t.pt ensures Owns(t, p) {
      assert Owns(sp, p);
    }
    forall d, k: nat | d in t.nodes && t.nodes[d].mapped && k < Pages(t.nodes[d].size)
      ensures Iova(t.nodes[d], k) in t.pt && t.pt[Iova(t.nodes[d], k)] == Frame(d, k)
    {
      assert Iova(sp.nodes[d], k) in sp.pt;
      assert sp.pt[Iova(sp.nodes[d], k)] == Frame(d, k);
    }
  }

  lemma RemoveOk(sp: Space, b: nat)
    requires Ok(sp) && b in sp.nodes && !sp.nodes[b].mapped
    ensures Ok(Remove(sp, b))
  {
    var t := Remove(sp, b);
    forall p | p in t.pt ensures Owns(t, p) {
      assert Owns(sp, p);
    }
  }

  lemma UndoFresh(sp: Space, b: nat, start: nat, size: nat)
    requires b !in sp.nodes && forall p <- PageRange(start / PAGE, Pages(size)) :: p !in sp.pt
    ensures var made := Map(Insert(sp, b, start, size), b);
      UnmapsAll(made, b, Pages(size) * PAGE) && Remove(Unmap(made, b, Pages(size) * PAGE), b) == sp
  {
    var undone := Unmap(Map(Insert(sp, b, start, size), b), b, Pages(size) * PAGE);
    assert undone.pt == sp.pt;
    assert Remove(undone, b).nodes == sp.nodes;
  }

  // Freeing a buffer undoes its creation exactly: allocator and page table are as before.
  lemma CreateFreeRoundTrip(sp: Space, b: nat, start: nat, size: nat)
    requires Ok(sp) && CanInsert(sp, b, start, size)
    ensures var made := Map(Insert(sp, b, start, size), b);
      UnmapsAll(made, b, Pages(size) * PAGE) && Remove(Unmap(made, b, Pages(size) * PAGE), b) == sp
  {
    InsertOk(sp, b, start, size);
    MapFresh(Insert(sp, b, start, size), b);
    UndoFresh(sp, b, start, size);
  }
}
