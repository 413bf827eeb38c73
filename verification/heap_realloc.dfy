/** `k_mm_realloc` on all its paths. */
module HeapRealloc {
  import opened Options
  import opened HeapLevels
  import opened HeapTiling
  import opened HeapState
  import opened DoubleLinks
  import opened HeapIndex
  import opened HeapOperations
  import opened HeapSafety

  function Min(a: nat, b: nat): nat { if a < b then a else b }

  /** What `k_mm_realloc` promises about the new address q of old block p: it is live
      with room for n bytes, holds the first keep bytes of p, and nobody else notices. */
  ghost predicate Moved(h: Heap, p: Addr, h1: Heap, q: Addr, n: nat, keep: nat) {
    && HeapOk(h1) && Live(h1, q) && Room(h1, q) >= n && SameBytes(h, p, h1, q, keep)
    && (q != p ==> !Live(h, q) && !Live(h1, p))
    && (forall x {:trigger Live(h, x)} :: Live(h, x) && x != p ==> Kept(h, h1, x))
    && (forall x {:trigger Live(h1, x)} :: Live(h1, x) && x != q ==> Live(h, x))
  }

  // ---- in place -------------------------------------------------------------------------

  /** Absorbing a free successor while shrinking always leaves room for a legal split. */
  lemma ShrinkSplits(h: Heap, b: Addr, n: nat)
    requires HeapOk(h) && Live(h, b + HEAD) && !InPool(h, b + HEAD)
    requires n <= H(h.blks, b).size && H(h.blks, Nx(h.blks, b)).free
    ensures Cuttable(JoinNext(h, b).blks, b, n)
  {
    var c := Nx(h.blks, b);
    Neighbour(h.blks, h.regions, c);
    JoinNextFine(h, b);
  }

  function InPlace(h: Heap, b: Addr, n: nat): Heap {
    var h1 := JoinNext(h, b);
    if Cuttable(h1.blks, b, n) then Trim(h1, b, n) else h1
  }

  lemma InPlaceFine(h: Heap, b: Addr, n: nat)
    requires Fine(h) && Plain(h.blks, h.regions, b) && !h.blks[b].free
    requires n % ALIGN == 0 && MIN_SIZE <= n <= Joined(h.blks, b).size
    ensures var h1 := InPlace(h, b, n); Fine(h1) && Step(h, h1, b, Min(h.blks[b].size, n))
    ensures var m1 := InPlace(h, b, n).blks; Plain(m1, h.regions, b) && Used(m1, b) && m1[b].size >= n
  {
    var h1, k := JoinNext(h, b), h.blks[b].size;
    JoinNextFine(h, b);
    hide BlocksFine, JoinNext, Trim, Step, Coalesced;
    if Cuttable(h1.blks, b, n) {
      TrimFine(h1, b, n, {});
      StepTrans(h, h1, Trim(h1, b, n), b, k, n);
    } else {
      StepLess(h, h1, b, Min(k, n));
    }
  }

  lemma InPlaceSafe(h: Heap, p: Addr, n: nat)
    requires HeapOk(h) && Live(h, p) && !InPool(h, p)
    requires n % ALIGN == 0 && MIN_SIZE <= n <= Joined(h.blks, p - HEAD).size
    ensures Moved(h, p, InPlace(h, p - HEAD, n), p, n, Min(Room(h, p), n))
  {
    var b := p - HEAD;
    var h1, k := InPlace(h, b, n), Min(h.blks[b].size, n);
    InPlaceFine(h, b, n);
    hide InPlace, Fine, OthersKept;
    StepPool(h, h1, b, k);
    StepKept(h, h1, b, k);
    StayedSafe(h, h1, p, k);
  }

  lemma StayedSafe(h: Heap, h1: Heap, p: Addr, k: nat)
    requires Live(h, p) && !InPool(h, p) && Step(h, h1, p - HEAD, k) && OthersKept(h, h1, p)
    requires Plain(h1.blks, h.regions, p - HEAD) && Used(h1.blks, p - HEAD)
    ensures Live(h1, p) && SameBytes(h, p, h1, p, k) && !InPool(h1, p)
    ensures forall x {:trigger Live(h, x)} :: Live(h, x) && x != p ==> Kept(h, h1, x)
    ensures forall x {:trigger Live(h1, x)} :: Live(h1, x) && x != p ==> Live(h, x)
  {
    assert Quiet(h.mem, h1.mem, p - HEAD, k);
  }

  // ---- moving -----------------------------------------------------------------------------

  /** memcpy into a live block leaves every other one alone. */
  lemma CopySafe(h: Heap, p: Addr, q: Addr, keep: nat)
    requires HeapOk(h) && Live(h, p) && Live(h, q) && p != q && keep <= Room(h, p) && keep <= Room(h, q)
    ensures var h1 := h.(mem := Copy(h.mem, q, p, keep));
      HeapOk(h1) && Live(h1, p) && Live(h1, q) && OthersKept(h, h1, q) && SameBytes(h, p, h1, q, keep) && Room(h1, q) == Room(h, q)
  {
    var h1 := h.(mem := Copy(h.mem, q, p, keep));
    FineSame(h, h1);
    hide Fine;
    forall x: Addr | Live(h, x) && x != q ensures Kept(h, h1, x) { CopyKept(h, p, q, keep, x); }
    assert Kept(h, h1, p);
    hide PoolOk, Plain;
  }

  lemma CopyKept(h: Heap, p: Addr, q: Addr, keep: nat, x: Addr)
    requires HeapOk(h) && Live(h, q) && Live(h, x) && x != q && keep <= Room(h, q)
    ensures Kept(h, h.(mem := Copy(h.mem, q, p, keep)), x)
  {
    hide Fine;
    if x < q { LiveApart(h, x, q); } else { LiveApart(h, q, x); }
    hide PoolOk, Plain;
  }

  lemma MoveSafe(h: Heap, p: Addr, size: nat, keep: nat, quick: bool)
    requires HeapOk(h) && Live(h, p) && 0 < size && keep <= Room(h, p)
    requires keep <= Needed(size) && (size <= POOL_BLK ==> keep <= size)
    ensures var (h1, r) := Move(h, p, size, keep, quick);
      match r
      case None => h1 == h && Alloc(h, size, quick).1.None?
      case Some(q) => Moved(h, p, h1, q, Min(size, Needed(size)), keep)
  {
    hide Alloc, HeapOk, Free, Live, Copy, Kept, Needed, InPool, Room, SameBytes;
    var (h1, r) := Alloc(h, size, quick);
    AllocIsSafe(h, size, quick);
    if r.Some? {
      var q := r.value;
      NeededOrPool(h, h1, q, size);
      assert Kept(h, h1, p) by { assert OthersKept(h, h1, q); assert Live(h, p); }
      KeptIs(h, h1, p);
      CopySafe(h1, p, q, keep);
      var h2 := h1.(mem := Copy(h1.mem, q, p, keep));
      FreeIsSafe(h2, p);
      MoveChain(h, h1, h2, Free(h2, Some(p)), p, q, keep);
    }
  }

  lemma NeededOrPool(h: Heap, h1: Heap, q: Addr, size: nat)
    requires Room(h1, q) >= (if InPool(h, q) then POOL_BLK else Needed(size))
    requires InPool(h, q) ==> size <= POOL_BLK
    ensures Room(h1, q) >= Min(size, Needed(size))
    ensures InPool(h, q) ==> Room(h1, q) >= POOL_BLK
    ensures !InPool(h, q) ==> Room(h1, q) >= Needed(size)
  {
  }

  lemma KeptIs(h: Heap, h1: Heap, p: Addr)
    requires Kept(h, h1, p)
    ensures Live(h1, p) && Room(h1, p) == Room(h, p) && SameBytes(h, p, h1, p, Room(h, p))
  {
  }

  lemma KeptTrans(h: Heap, h1: Heap, h2: Heap, q: Addr)
    requires Kept(h, h1, q) && Kept(h1, h2, q)
    ensures Kept(h, h2, q)
  {
  }

  /** allocate, copy, free, put together */
  lemma MoveChain(h: Heap, h1: Heap, h2: Heap, h3: Heap, p: Addr, q: Addr, keep: nat)
    requires p != q && Live(h, p) && !Live(h, q) && OthersKept(h, h1, q) && Kept(h, h1, p) && keep <= Room(h, p)
    requires OthersKept(h1, h2, q) && SameBytes(h1, p, h2, q, keep) && Live(h2, q) && keep <= Room(h2, q)
    requires OthersKept(h2, h3, p) && HeapOk(h3) && !Live(h3, p)
    ensures Moved(h, p, h3, q, Room(h2, q), keep)
  {
    assert Kept(h2, h3, q);
    hide Live, HeapOk, Kept;
    KeptIs(h2, h3, q);
    KeptIs(h, h1, p);
    forall x | Live(h, x) && x != p ensures Kept(h, h3, x) {
      assert Kept(h, h1, x);
      KeptIs(h, h1, x);
      assert Kept(h1, h2, x);
      KeptIs(h1, h2, x);
      assert Kept(h2, h3, x);
      KeptTrans(h, h1, h2, x);
      KeptTrans(h, h2, h3, x);
    }
    forall x | Live(h3, x) && x != q ensures Live(h, x) {
      assert x != p;
      assert Live(h2, x) && Live(h1, x);
    }
    BytesTrans(h, h1, h2, h3, p, q, keep);
  }

  lemma BytesTrans(h: Heap, h1: Heap, h2: Heap, h3: Heap, p: Addr, q: Addr, keep: nat)
    requires SameBytes(h, p, h1, p, Room(h, p)) && keep <= Room(h, p)
    requires SameBytes(h1, p, h2, q, keep) && SameBytes(h2, q, h3, q, Room(h2, q)) && keep <= Room(h2, q)
    ensures SameBytes(h, p, h3, q, keep)
  {
  }

  // ---- k_mm_realloc -----------------------------------------------------------------------

  /** Reallocating a live block to a non-zero size: on null nothing at all has changed
      and the block is still live; otherwise the block returned has the room asked for
      (unless rounding up overflowed) and the old contents up to the smaller size. */
  lemma ReallocIsSafe(h: Heap, p: Addr, size: nat, quick: bool)
    requires HeapOk(h) && Live(h, p) && 0 < size < SIZE_SPAN
    ensures var (h1, r) := Realloc(h, Some(p), size, quick);
      match r
      case None => h1 == h
      case Some(q) => Moved(h, p, h1, q, Min(size, Needed(size)), Min(Room(h, p), Min(size, Needed(size))))
  {
    if InPool(h, p) {
      PoolRealloc(h, p, size, quick);
    } else {
      BlkRealloc(h, p, size, quick);
    }
  }

  lemma PoolRealloc(h: Heap, p: Addr, size: nat, quick: bool)
    requires HeapOk(h) && Live(h, p) && 0 < size < SIZE_SPAN && InPool(h, p)
    ensures var (h1, r) := Realloc(h, Some(p), size, quick);
      match r
      case None => h1 == h
      case Some(q) => Moved(h, p, h1, q, Min(size, Needed(size)), Min(Room(h, p), Min(size, Needed(size))))
  {
    hide HeapOk, Moved, Move, ReallocBlk, Live, Free, Alloc;
    if size <= POOL_BLK {
      StaysAsItIs(h, p, size);
    } else {
      MoveSafe(h, p, size, POOL_BLK, quick);
      if Move(h, p, size, POOL_BLK, quick).1.Some? {
        var (h1, r) := Move(h, p, size, POOL_BLK, quick);
        MovedLess(h, p, h1, r.value, Min(size, Needed(size)), POOL_BLK, Min(size, Needed(size)), Min(Room(h, p), Min(size, Needed(size))));
      }
    }
  }

  /** A pool block serves every size up to its own. */
  lemma StaysAsItIs(h: Heap, p: Addr, size: nat)
    requires HeapOk(h) && Live(h, p) && InPool(h, p) && 0 < size <= POOL_BLK
    ensures Moved(h, p, h, p, Min(size, Needed(size)), Min(Room(h, p), Min(size, Needed(size))))
  {
    hide HeapOk, Needed;
  }

  /** The room promised and the bytes kept for a request of size bytes. */
  function Promised(size: nat): nat { Min(size, Needed(size)) }

  lemma BlkInPlace(h: Heap, p: Addr, size: nat)
    requires HeapOk(h) && Live(h, p) && !InPool(h, p) && p >= HEAD && Needed(size) <= Joined(h.blks, p - HEAD).size
    ensures Moved(h, p, InPlace(h, p - HEAD, Needed(size)), p, Promised(size), Min(Room(h, p), Promised(size)))
  {
    hide HeapOk, Live, InPool, Joined, InPlace, Moved, Needed, Room;
    var n := Needed(size);
    InPlaceSafe(h, p, n);
    MovedLess(h, p, InPlace(h, p - HEAD, n), p, n, Min(Room(h, p), n), Promised(size), Min(Room(h, p), Promised(size)));
  }

  lemma BlkMoved(h: Heap, p: Addr, size: nat, quick: bool)
    requires HeapOk(h) && Live(h, p) && !InPool(h, p) && size < SIZE_SPAN && Room(h, p) < Needed(size)
    ensures var (h1, r) := Move(h, p, Needed(size), Room(h, p), quick);
      match r
      case None => h1 == h
      case Some(q) => Moved(h, p, h1, q, Promised(size), Min(Room(h, p), Promised(size)))
  {
    hide HeapOk, Live, InPool, Move, Moved, Room;
    var n := Needed(size);
    Aligned(size);
    MoveSafe(h, p, n, Room(h, p), quick);
    var (h1, r) := Move(h, p, n, Room(h, p), quick);
    if r.Some? { MovedLess(h, p, h1, r.value, Min(n, Needed(n)), Room(h, p), Promised(size), Min(Room(h, p), Promised(size))); }
  }

  lemma BlkRealloc(h: Heap, p: Addr, size: nat, quick: bool)
    requires HeapOk(h) && Live(h, p) && 0 < size < SIZE_SPAN && !InPool(h, p)
    ensures var (h1, r) := Realloc(h, Some(p), size, quick);
      match r
      case None => h1 == h
      case Some(q) => Moved(h, p, h1, q, Promised(size), Min(Room(h, p), Promised(size)))
  {
    hide Realloc, HeapOk, Live, InPlace, Move, Moved, Joined, InPool, Needed, Promised, Room, H;
    BlkRoom(h, p);
    ReallocBlkIs(h, p, size, quick);
    if Needed(size) <= Joined(h.blks, p - HEAD).size {
      BlkInPlace(h, p, size);
    } else {
      BlkMoved(h, p, size, quick);
    }
  }

  lemma BlkRoom(h: Heap, p: Addr)
    requires Live(h, p) && !InPool(h, p)
    ensures p >= HEAD && Room(h, p) == H(h.blks, p - HEAD).size <= Joined(h.blks, p - HEAD).size
  {
  }

  /** Growing and shrinking in place differ only in what they write. */
  lemma ReallocBlkIs(h: Heap, p: Addr, size: nat, quick: bool)
    requires p >= HEAD && !InPool(h, p) && size > 0
    ensures var b, n := p - HEAD, Needed(size);
      Realloc(h, Some(p), size, quick) == (if n <= Joined(h.blks, b).size then (InPlace(h, b, n), Some(p)) else Move(h, p, n, H(h.blks, b).size, quick))
  {
    hide Move, JoinNext, Trim;
  }

  /** Rounding up an already rounded size changes nothing. */
  lemma Aligned(size: nat)
    ensures Needed(Needed(size)) == Needed(size) < SIZE_SPAN
  {
    var n := Needed(size);
    assert n % ALIGN == 0 && n <= SIZE_SPAN - ALIGN;
    assert (n + ALIGN - 1) / ALIGN * ALIGN == n;
  }

  lemma MovedLess(h: Heap, p: Addr, h1: Heap, q: Addr, n: nat, keep: nat, n1: nat, keep1: nat)
    requires Moved(h, p, h1, q, n, keep) && n1 <= n && keep1 <= keep
    ensures Moved(h, p, h1, q, n1, keep1)
  {
  }
}
