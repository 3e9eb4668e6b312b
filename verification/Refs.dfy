/**
 A kref ledger: which pointer variables currently hold a counted reference, and what each
 object's counter says.  The driver counts three kinds of object this way (IOMMU domains,
 jobs, buffer objects), so the accounting argument is made here once for all three.

 `ptr` is the ground truth (pointer variable -> object it points to) and `kref` is the
 counter the code actually maintains; an object is in `kref` exactly while its memory is
 allocated.
 */
module Refs {

  datatype Refs<H, A> = Refs(ptr: map<H, A>, kref: map<A, nat>)

  // The pointer variables that hold object a.
  ghost function Holders<H, A>(ptr: map<H, A>, a: A): set<H> {
    set h | h in ptr && ptr[h] == a
  }

  // Every counter is the number of holders, every holder points at allocated memory, and
  // nothing stays allocated without a holder.
  ghost predicate Balanced<H, A>(r: Refs<H, A>) {
    && (forall h <- r.ptr :: r.ptr[h] in r.kref)
    && (forall a <- r.kref :: r.kref[a] == |Holders(r.ptr, a)| && 0 < r.kref[a])
  }

  // kref_init: a fresh object whose creation reference is held by h.
  function New<H, A>(r: Refs<H, A>, h: H, a: A): Refs<H, A> {
    Refs(r.ptr[h := a], r.kref[a := 1])
  }

  // kref_get of an allocated object, the new reference stored in h.
  function Get<H, A>(r: Refs<H, A>, h: H, a: A): Refs<H, A>
    requires a in r.kref
  {
    Refs(r.ptr[h := a], r.kref[a := r.kref[a] + 1])
  }

  // A reference changes hands without touching the counter.
  function Move<H, A>(r: Refs<H, A>, from: H, to: H): Refs<H, A>
    requires from in r.ptr
  {
    Refs((r.ptr - {from})[to := r.ptr[from]], r.kref)
  }

  // Does kref_put through h bring the counter to zero?
  predicate IsLast<H, A>(r: Refs<H, A>, h: H)
    requires h in r.ptr && r.ptr[h] in r.kref
  {
    r.kref[r.ptr[h]] <= 1
  }

  // kref_put: the object is deallocated when the counter reaches zero.
  function Put<H, A>(r: Refs<H, A>, h: H): Refs<H, A>
    requires h in r.ptr && r.ptr[h] in r.kref
  {
    var a := r.ptr[h];
    Refs(r.ptr - {h}, if IsLast(r, h) then r.kref - {a} else r.kref[a := r.kref[a] - 1])
  }

  lemma HoldersAdd<H, A>(ptr: map<H, A>, h: H, a: A)
    requires h !in ptr
    ensures forall x :: Holders(ptr[h := a], x) == if x == a then Holders(ptr, x) + {h} else Holders(ptr, x)
  {
    forall x
      ensures Holders(ptr[h := a], x) == if x == a then Holders(ptr, x) + {h} else Holders(ptr, x)
    {
      assert forall g :: g in Holders(ptr[h := a], x) <==> g in Holders(ptr, x) || (g == h && x == a);
    }
  }

  lemma HoldersDrop<H, A>(ptr: map<H, A>, h: H)
    ensures forall x :: Holders(ptr - {h}, x) == Holders(ptr, x) - {h}
  {
    forall x
      ensures Holders(ptr - {h}, x) == Holders(ptr, x) - {h}
    {
    }
  }

  lemma NewBalanced<H, A>(r: Refs<H, A>, h: H, a: A)
    requires Balanced(r) && h !in r.ptr && a !in r.kref
    ensures Balanced(New(r, h, a))
  {
    HoldersAdd(r.ptr, h, a);
    assert Holders(r.ptr, a) == {};
    assert Holders(r.ptr[h := a], a) == {h};
  }

  lemma GetBalanced<H, A>(r: Refs<H, A>, h: H, a: A)
    requires Balanced(r) && h !in r.ptr && a in r.kref
    ensures Balanced(Get(r, h, a))
  {
    HoldersAdd(r.ptr, h, a);
  }

  lemma MoveBalanced<H, A>(r: Refs<H, A>, from: H, to: H)
    requires Balanced(r) && from in r.ptr && to !in r.ptr
    ensures Balanced(Move(r, from, to))
  {
    HoldersDrop(r.ptr, from);
    HoldersAdd(r.ptr - {from}, to, r.ptr[from]);
  }

  lemma HolderLive<H, A>(r: Refs<H, A>, h: H)
    requires Balanced(r) && h in r.ptr
    ensures r.ptr[h] in r.kref
  {
  }

  // A put keeps the ledger, and deallocates exactly when h was the only holder.
  lemma PutBalanced<H, A>(r: Refs<H, A>, h: H)
    requires Balanced(r) && h in r.ptr
    ensures Balanced(Put(r, h))
    ensures r.ptr[h] !in Put(r, h).kref <==> Holders(r.ptr, r.ptr[h]) == {h}
    ensures IsLast(r, h) <==> forall g <- r.ptr :: r.ptr[g] == r.ptr[h] ==> g == h
  {
    var a := r.ptr[h];
    HoldersDrop(r.ptr, h);
    assert h in Holders(r.ptr, a);
    assert |Holders(r.ptr, a) - {h}| == |Holders(r.ptr, a)| - 1;
    if IsLast(r, h) {
      assert Holders(r.ptr, a) - {h} == {};
      forall g | g in r.ptr && r.ptr[g] == a ensures g == h {
        assert g in Holders(r.ptr, a);
      }
    } else {
      assert Holders(r.ptr, a) - {h} != {};
      var g :| g in Holders(r.ptr, a) - {h};
      assert g in r.ptr && r.ptr[g] == a && g != h;
    }
  }
}
