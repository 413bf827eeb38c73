/** What the heap promises its users, for every state it can be in. */
module HeapSafety {
  import opened Lists
  import opened Options
  import opened HeapLevels
  import opened HeapTiling
  import opened HeapState
  import opened DoubleLinks
  import opened HeapIndex
  import opened HeapSearch
  import opened HeapOperations

  /** A block of the fixed pool: wholly inside it, at a multiple of the block size. */
  predicate Slot(start: Addr, a: Addr) {
    start <= a && a + POOL_BLK <= start + POOL_SIZE && (a - start) % POOL_BLK == 0
  }

  /** The pool lies inside one used block and hands out distinct blocks of its own. */
  ghost predicate PoolOk(h: Heap) {
    match h.pool
    case NoPool => true
    case Pool(fix, start, avail) =>
      && HEAD <= fix <= start && Used(h.blks, fix - HEAD) && Plain(h.blks, h.regions, fix - HEAD)
      && start + POOL_SIZE <= Nx(h.blks, fix - HEAD)
      && NoDup(avail) && (forall a :: a in avail ==> Slot(start, a))
  }

  /** The heap invariant. */
  ghost predicate HeapOk(h: Heap) { Fine(h) && PoolOk(h) }

  /** p was handed to a user who has not given it back. */
  predicate Live(h: Heap, p: Addr) {
    if InPool(h, p) then Slot(h.pool.start, p) && p !in h.pool.avail
    else p >= HEAD && Used(h.blks, p - HEAD) && Plain(h.blks, h.regions, p - HEAD) && !(h.pool.Pool? && p == h.pool.fix)
  }

  /** Bytes usable at p. */
  function Room(h: Heap, p: Addr): nat {
    if InPool(h, p) then POOL_BLK else if p >= HEAD then H(h.blks, p - HEAD).size else 0
  }

  /** The first n bytes at q in h1 are those at p in h. */
  ghost predicate SameBytes(h: Heap, p: Addr, h1: Heap, q: Addr, n: nat) {
    forall x {:trigger Byte(h1.mem, x)} :: q <= x < q + n ==> Byte(h1.mem, x) == Byte(h.mem, p + x - q)
  }

  /** q is live before and after, with the same room and contents. */
  ghost predicate Kept(h: Heap, h1: Heap, q: Addr) {
    Live(h1, q) && Room(h1, q) == Room(h, q) && SameBytes(h, q, h1, q, Room(h, q))
  }

  /** Users of addresses other than p notice nothing. */
  ghost predicate OthersKept(h: Heap, h1: Heap, p: Addr) {
    && (forall q {:trigger Live(h, q)} :: Live(h, q) && q != p ==> Kept(h, h1, q))
    && (forall q {:trigger Live(h1, q)} :: Live(h1, q) && q != p ==> Live(h, q))
  }

  /** Nothing outside the pool's own block is in the pool. */
  lemma OutsidePool(h: Heap, b: Addr)
    requires HeapOk(h) && b in h.blks && (h.pool.Pool? ==> b != h.pool.fix - HEAD)
    ensures !InPool(h, b + HEAD)
  {
    if h.pool.Pool? {
      var o := h.pool.fix - HEAD;
      assert Apart(h.blks, b, o) && Apart(h.blks, o, b);
    }
  }

  /** Live buffers do not overlap. */
  lemma LiveApart(h: Heap, p: Addr, q: Addr)
    requires HeapOk(h) && Live(h, p) && Live(h, q) && p < q
    ensures p + Room(h, p) <= q
  {
    if InPool(h, p) && InPool(h, q) {
    } else if !InPool(h, p) && !InPool(h, q) {
      assert Apart(h.blks, p - HEAD, q - HEAD);
    } else if InPool(h, p) {
      assert Apart(h.blks, h.pool.fix - HEAD, q - HEAD) && Apart(h.blks, q - HEAD, h.pool.fix - HEAD);
    } else {
      assert Apart(h.blks, h.pool.fix - HEAD, p - HEAD) && Apart(h.blks, p - HEAD, h.pool.fix - HEAD);
    }
  }

  /** A live buffer lies inside one region, clear of every header. */
  lemma LiveInside(h: Heap, p: Addr) returns (s: Addr)
    requires HeapOk(h) && Live(h, p)
    ensures s in h.regions && s + HEAD <= p && p + Room(h, p) <= h.regions[s]
    ensures forall b, x :: b in h.blks && x in HdrCells(b) ==> !(p <= x < p + Room(h, p))
  {
    var o := if InPool(h, p) then h.pool.fix - HEAD else p - HEAD;
    assert InSome(h.blks, h.regions, o);
    s :| Within(h.blks, h.regions, o, s);
    InsideRegion(h.blks, h.regions, o, s);
    forall b, x | b in h.blks && x in HdrCells(b) ensures !(p <= x < p + Room(h, p)) {
      assert Apart(h.blks, b, o) && Apart(h.blks, o, b);
    }
  }

  // ---- from steps to users ---------------------------------------------------------------

  lemma StepPool(h: Heap, h1: Heap, b: Addr, n: nat)
    requires HeapOk(h) && Step(h, h1, b, n) && (h.pool.Pool? ==> b != h.pool.fix - HEAD)
    ensures PoolOk(h1)
  {
    hide Fine;
    if h.pool.Pool? { assert Used(h1.blks, h.pool.fix - HEAD); }
  }

  lemma StepKept(h: Heap, h1: Heap, b: Addr, n: nat)
    requires HeapOk(h) && Step(h, h1, b, n) && (h.pool.Pool? ==> b != h.pool.fix - HEAD)
    ensures OthersKept(h, h1, b + HEAD)
  {
    forall q | q != b + HEAD && (Live(h, q) || Live(h1, q)) ensures Live(h, q) && Kept(h, h1, q) {
      StepKeeps(h, h1, b, n, q);
    }
  }

  lemma StepKeeps(h: Heap, h1: Heap, b: Addr, n: nat, q: Addr)
    requires HeapOk(h) && Step(h, h1, b, n) && (h.pool.Pool? ==> b != h.pool.fix - HEAD)
    requires q != b + HEAD && (Live(h, q) || Live(h1, q))
    ensures Live(h, q) && Kept(h, h1, q)
  {
    hide Fine;
    if InPool(h, q) {
      var o := h.pool.fix - HEAD;
      assert Used(h.blks, o);
      assert Quiet(h.mem, h1.mem, o, H(h.blks, o).size);
    } else {
      assert Used(h.blks, q - HEAD) == Used(h1.blks, q - HEAD);
      assert Quiet(h.mem, h1.mem, q - HEAD, H(h.blks, q - HEAD).size);
    }
  }

  // ---- k_mm_alloc ---------------------------------------------------------------------------

  /** Outside the pool: nothing is found exactly when no free block serves the
      request; otherwise one is found and becomes the caller's. */
  lemma AllocBlkFine(h: Heap, size: nat, quick: bool)
    requires HeapOk(h)
    ensures var (h1, r) := AllocBlk(h, size, quick);
      match r
      case None => h1 == h && forall x :: !Serves(h.blks, x, Needed(size))
      case Some(p) => p >= HEAD && Serves(h.blks, p - HEAD, Needed(size)) && FreshBlock(h, h1, p - HEAD, Needed(size))
  {
    hide Fine, Search, Needed, Serves, Level, Pow2, FreshBlock, Take, Delete;
    var n := Needed(size);
    if Level(n) < 0 {
      NoneServes(h.blks, n);
    } else {
      SearchIsExact(h, n, quick) by { assert BlocksFine(h, {}) by { FineParts(h); } }
      var f := Search(h, n, quick);
      if f.Some? {
        FreshTaken(h, f.value, n);
      }
    }
  }

  lemma FineParts(h: Heap)
    requires Fine(h)
    ensures BlocksFine(h, {}) && Tiled(h.blks, h.regions) && IndexOk(h, {}) && Coalesced(h.blks)
  {
  }

  lemma NoneServes(m: Blocks, n: nat)
    requires Level(n) < 0
    ensures forall x :: !Serves(m, x, n)
  {
    forall x ensures !Serves(m, x, n) { if Serves(m, x, n) { ServedHasLevel(m, x, n); } }
  }

  /** b, a free block before, is the caller's afterwards, with room for n bytes. */
  ghost predicate FreshBlock(h: Heap, h1: Heap, b: Addr, n: nat) {
    && b in h.blks && h.blks[b].free
    && Fine(h1) && Step(h, h1, b, 0)
    && Plain(h1.blks, h.regions, b) && Used(h1.blks, b) && h1.blks[b].size >= n
  }

  lemma FreshTaken(h: Heap, b: Addr, n: nat)
    requires Fine(h) && Serves(h.blks, b, n) && n % ALIGN == 0 && n >= MIN_SIZE
    ensures FreshBlock(h, Take(Delete(h, b), b, n), b, n)
  {
    var h1 := Delete(h, b);
    DeleteFine(h, b, b, {});
    assert {} + {b} == {b};
    hide BlocksFine, Step, Take, Delete, Coalesced;
    TakeFine(h1, b, n);
    StepTrans(h, h1, Take(h1, b, n), b, 0, 0);
  }

  /** `k_mm_alloc` keeps the heap well formed. What it returns was free and is the
      caller's alone, and has the room asked for unless rounding the size up overflowed.
      It returns null exactly when no block serves the request. */
  lemma AllocIsSafe(h: Heap, size: nat, quick: bool)
    requires HeapOk(h)
    ensures var (h1, r) := Alloc(h, size, quick); HeapOk(h1) && (r.None? ==> h1 == h)
    ensures Alloc(h, size, quick).1.None? <==> size == 0 || (!PoolServes(h, size) && forall x :: !Serves(h.blks, x, Needed(size)))
    ensures var (h1, r) := Alloc(h, size, quick); r.Some? ==>
      && !Live(h, r.value) && Live(h1, r.value) && OthersKept(h, h1, r.value)
      && Room(h1, r.value) >= (if InPool(h, r.value) then POOL_BLK else Needed(size))
      && (InPool(h, r.value) <==> PoolServes(h, size))
  {
    hide HeapOk, Serves, Live, OthersKept, Needed, AllocBlk, Room, FreshBlock;
    if size > 0 {
      if PoolServes(h, size) {
        PoolAllocSafe(h, size);
      } else {
        AllocBlkFine(h, size, quick);
        var (h1, r) := AllocBlk(h, size, quick);
        if r.Some? { FreshSafe(h, h1, r.value - HEAD, Needed(size)); }
      }
    }
  }

  lemma FreshSafe(h: Heap, h1: Heap, b: Addr, n: nat)
    requires HeapOk(h) && FreshBlock(h, h1, b, n)
    ensures HeapOk(h1) && !Live(h, b + HEAD) && Live(h1, b + HEAD) && OthersKept(h, h1, b + HEAD)
    ensures !InPool(h, b + HEAD) && Room(h1, b + HEAD) >= n
  {
    OutsidePool(h, b);
    hide Fine;
    StepPool(h, h1, b, 0);
    StepKept(h, h1, b, 0);
  }

  lemma PoolAllocSafe(h: Heap, size: nat)
    requires HeapOk(h) && PoolServes(h, size)
    ensures var (h1, p) := (h.(pool := h.pool.(avail := h.pool.avail[1..])), h.pool.avail[0]);
      HeapOk(h1) && InPool(h, p) && !Live(h, p) && Live(h1, p) && OthersKept(h, h1, p) && Room(h1, p) == POOL_BLK
  {
    var h1, p := h.(pool := h.pool.(avail := h.pool.avail[1..])), h.pool.avail[0];
    assert h.pool.avail == [p] + h1.pool.avail;
    FineSame(h, h1);
    hide Fine;
    assert p in h.pool.avail;
  }

  /** Well-formed blocks do not depend on pool or bytes. */
  lemma FineSame(h: Heap, h1: Heap)
    requires Fine(h) && h1.blks == h.blks && h1.regions == h.regions && h1.lists == h.lists && h1.bits == h.bits
    ensures Fine(h1)
  {
    ReshapeIndex(h, h1, {}, {});
  }

  /** The room really is what was asked for, except that sizes close to 2^32 wrap to 32. */
  lemma NeededIsEnough(size: nat)
    requires 0 < size < SIZE_SPAN
    ensures Needed(size) >= size <==> size <= SIZE_SPAN - ALIGN
    ensures size > SIZE_SPAN - ALIGN ==> Needed(size) == MIN_SIZE
  {
  }

  /** As long as no region is larger than MM_MAX_SIZE every free block is on a list,
      so null means that no free block at all is large enough. */
  lemma NullMeansFull(h: Heap, size: nat, quick: bool)
    requires HeapOk(h) && size > 0 && !PoolServes(h, size)
    requires forall s :: s in h.regions ==> h.regions[s] + HEAD - s <= Pow2(MAX_BIT)
    ensures Alloc(h, size, quick).1.None? <==> forall x :: x in h.blks && h.blks[x].free ==> h.blks[x].size < Needed(size)
  {
    AllocIsSafe(h, size, quick);
    forall x | x in h.blks && h.blks[x].free && h.blks[x].size >= Needed(size) ensures Serves(h.blks, x, Needed(size)) {
      assert BlockOk(h.blks, h.regions, x);
      assert InSome(h.blks, h.regions, x);
      var s :| Within(h.blks, h.regions, x, s);
      InsideRegion(h.blks, h.regions, x, s);
    }
    forall x | Serves(h.blks, x, Needed(size)) ensures x in h.blks && h.blks[x].free && h.blks[x].size >= Needed(size) {}
  }

  // ---- k_mm_free -------------------------------------------------------------------------

  /** `k_mm_free` of a live address keeps the heap well formed, ends its life, and
      nobody else notices. */
  lemma FreeIsSafe(h: Heap, p: Addr)
    requires HeapOk(h) && Live(h, p)
    ensures var h1 := Free(h, Some(p)); HeapOk(h1) && !Live(h1, p) && OthersKept(h, h1, p)
  {
    hide FreeBlk, Fine, Step, OthersKept, PoolOk, PoolFree;
    if InPool(h, p) {
      PoolFreeSafe(h, p);
    } else {
      var b := p - HEAD;
      FreeBlkFine(h, b);
      GoneSafe(h, FreeBlk(h, b), p);
    }
  }

  lemma GoneSafe(h: Heap, h1: Heap, p: Addr)
    requires HeapOk(h) && Live(h, p) && !InPool(h, p)
    requires Fine(h1) && Step(h, h1, p - HEAD, 0) && !Used(h1.blks, p - HEAD)
    ensures HeapOk(h1) && !Live(h1, p) && OthersKept(h, h1, p)
  {
    hide Fine;
    StepPool(h, h1, p - HEAD, 0);
    StepKept(h, h1, p - HEAD, 0);
    hide Others, AllQuiet, OthersKept;
  }

  lemma PoolFreeSafe(h: Heap, p: Addr)
    requires HeapOk(h) && Live(h, p) && InPool(h, p)
    ensures var h1 := PoolFree(h, p); HeapOk(h1) && !Live(h1, p) && OthersKept(h, h1, p)
  {
    var h1 := PoolFree(h, p);
    FineSame(h, h1);
    forall q: Addr | Live(h, q) && q != p ensures Kept(h, h1, q) {
      if q < p { LiveApart(h, q, p); } else { LiveApart(h, p, q); }
    }
  }
}
