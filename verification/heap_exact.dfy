/** How much memory each request takes, in numbers. */
module HeapExact {
  import opened Options
  import opened HeapLevels
  import opened HeapTiling
  import opened HeapState
  import opened DoubleLinks
  import opened HeapIndex
  import opened HeapSearch
  import opened HeapOperations
  import opened HeapSafety
  import opened HeapRealloc
  import opened HeapRuns

  /** Requests are rounded up to a multiple of 8 that is at least 32. */
  lemma NeededIs(size: nat)
    requires size <= 0xFFFF_FFF8
    ensures Needed(size) == if size <= 32 then 32 else (size + 7) / 8 * 8
  {
    assert (size + ALIGN - 1) % SIZE_SPAN == size + ALIGN - 1;
  }

  /** Block b, that had total bytes of buffer, is left with n bytes and what follows is a
      free block of the rest, if there is room for a block of 32 bytes and its header;
      otherwise b has it all. */
  ghost predicate Portioned(m: Blocks, b: Addr, total: nat, n: nat) {
    && b in m && !m[b].free
    && if total >= n + 8 + 32 then
         m[b].size == n && b + 8 + n in m && m[b + 8 + n].free && m[b + 8 + n].size == total - n - 8
       else m[b].size == total
  }

  lemma CutPortioned(h: Heap, b: Addr, n: nat, total: nat)
    requires b in h.blks && h.blks[b].size == total >= n + HEAD + MIN_SIZE
    ensures Portioned(Trim(h, b, n).blks, b, total, n)
    ensures forall x :: x in h.blks && x != b && x != b + HEAD + n && x != Nx(h.blks, b) ==> x in Trim(h, b, n).blks && Trim(h, b, n).blks[x] == h.blks[x]
  {
    assert b + HEAD + n != Nx(h.blks, b);
    hide Clobber, HdrCells, PtrCells;
  }

  lemma TakePortioned(h: Heap, b: Addr, n: nat)
    requires b in h.blks && n <= h.blks[b].size
    ensures Portioned(Take(h, b, n).blks, b, h.blks[b].size, n)
  {
    if h.blks[b].size >= n + HEAD + MIN_SIZE {
      CutPortioned(h, b, n, h.blks[b].size);
    } else {
      hide Clobber, HdrCells;
    }
  }

  lemma DeleteBlks(h: Heap, b: Addr)
    ensures Delete(h, b).blks == h.blks
  {
    hide Clobber, LinkCells;
  }

  /** A request outside the pool takes of the free block it is served from what it needs,
      and leaves the rest to others. */
  lemma AllocExact(h: Heap, size: nat, quick: bool)
    requires HeapOk(h) && !PoolServes(h, size) && Alloc(h, size, quick).1.Some?
    ensures var (h1, r) := Alloc(h, size, quick); var b := r.value - HEAD;
      && r.value >= HEAD && b in h.blks && h.blks[b].free && h.blks[b].size >= Needed(size)
      && Portioned(h1.blks, b, h.blks[b].size, Needed(size))
      && Needed(size) <= Room(h1, r.value) < Needed(size) + 8 + 32
  {
    hide HeapOk, Fine, Search, Needed, Serves, Level, Take, Delete, Live, Room, InPool, Portioned;
    var (h1, r) := Alloc(h, size, quick);
    AllocIsSafe(h, size, quick);
    TakenPortioned(h, size, quick);
    RoomOutside(h, h1, r.value);
    PortionedRoom(h1.blks, r.value - HEAD, h.blks[r.value - HEAD].size, Needed(size));
  }

  lemma TakenPortioned(h: Heap, size: nat, quick: bool)
    requires HeapOk(h) && !PoolServes(h, size) && Alloc(h, size, quick).1.Some?
    ensures var (h1, r) := Alloc(h, size, quick); var b := r.value - HEAD;
      && r.value >= HEAD && b in h.blks && h.blks[b].free && h.blks[b].size >= Needed(size)
      && Portioned(h1.blks, b, h.blks[b].size, Needed(size)) && h1.pool == h.pool
  {
    hide Fine, Search, Needed, Level, Take, Delete, Live, Room, InPool, Portioned, PoolOk, Pow2;
    var n := Needed(size);
    FineParts(h);
    SearchIsExact(h, n, quick);
    var b := Search(h, n, quick).value;
    DeleteBlks(h, b);
    TakePortioned(Delete(h, b), b, n);
    PoolStays(h, b, n);
  }

  lemma PoolStays(h: Heap, b: Addr, n: nat)
    ensures Take(Delete(h, b), b, n).pool == h.pool
  {
    hide Clobber, LinkCells, HdrCells, PtrCells, Split, SetFree;
  }

  lemma RoomOutside(h: Heap, h1: Heap, p: Addr)
    requires !InPool(h, p) && h1.pool == h.pool && p >= HEAD
    ensures Room(h1, p) == H(h1.blks, p - HEAD).size
  {
  }

  lemma PortionedRoom(m: Blocks, b: Addr, total: nat, n: nat)
    requires Portioned(m, b, total, n) && total >= n
    ensures n <= H(m, b).size < n + 8 + 32
  {
  }

  /** What a request leaves of the block it was served from serves a further request. */
  lemma RestServes(h: Heap, size: nat, quick: bool, size1: nat, quick1: bool)
    requires HeapOk(h) && size > 0 && !PoolServes(h, size) && Alloc(h, size, quick).1.Some? && size1 > 0
    requires var total := H(h.blks, Alloc(h, size, quick).1.value - HEAD).size;
      && Needed(size) + 8 + Needed(size1) <= total < Pow2(MAX_BIT)
    ensures var (h1, _) := Alloc(h, size, quick); Alloc(h1, size1, quick1).1.Some?
  {
    hide HeapOk, Alloc, Live, Room, InPool, Pow2, Portioned, Needed, OthersKept, Serves, PoolServes;
    AllocExact(h, size, quick);
    AllocIsSafe(h, size, quick);
    var (h1, r) := Alloc(h, size, quick);
    RestFree(h1.blks, r.value - HEAD, h.blks[r.value - HEAD].size, Needed(size), Needed(size1));
    AllocIsSafe(h1, size1, quick1);
  }

  lemma RestFree(m: Blocks, b: Addr, total: nat, n: nat, k: nat)
    requires Portioned(m, b, total, n) && n + 8 + k <= total < Pow2(MAX_BIT) && k >= MIN_SIZE
    ensures Serves(m, b + 8 + n, k)
  {
    hide Pow2;
  }

  // ---- reallocation -------------------------------------------------------------------------

  lemma JoinNextBlks(h: Heap, b: Addr)
    requires HeapOk(h) && Live(h, b + HEAD) && !InPool(h, b + HEAD)
    ensures var m1 := JoinNext(h, b).blks; b in m1 && m1[b] == Joined(h.blks, b) && b in h.blks && !h.blks[b].free
  {
    JoinNextFine(h, b);
    hide JoinNext, Joined, Fine, Step;
  }

  lemma InPlacePortioned(h: Heap, b: Addr, n: nat)
    requires HeapOk(h) && Live(h, b + HEAD) && !InPool(h, b + HEAD) && n <= Joined(h.blks, b).size
    ensures Portioned(InPlace(h, b, n).blks, b, Joined(h.blks, b).size, n)
  {
    hide HeapOk, Live, InPool, JoinNext, Joined, Trim, Portioned;
    JoinNextBlks(h, b);
    var h1 := JoinNext(h, b);
    if h1.blks[b].size >= n + HEAD + MIN_SIZE {
      CutPortioned(h1, b, n, h1.blks[b].size);
    } else {
      JoinedUsed(h, b);
      WholePortioned(h1.blks, b, n);
    }
  }

  lemma JoinedUsed(h: Heap, b: Addr)
    requires b in h.blks && !h.blks[b].free
    ensures !Joined(h.blks, b).free
  {
  }

  lemma WholePortioned(m: Blocks, b: Addr, n: nat)
    requires b in m && !m[b].free && m[b].size < n + HEAD + MIN_SIZE
    ensures Portioned(m, b, m[b].size, n)
  {
  }

  /** Reallocating outside the pool: where the block and a free one behind it have the room,
      the block stays at its place and is cut to what it needs; otherwise a new one is
      asked for, and null means that there is none. */
  lemma ReallocExact(h: Heap, p: Addr, size: nat, quick: bool)
    requires HeapOk(h) && Live(h, p) && !InPool(h, p) && 0 < size < SIZE_SPAN
    ensures p >= 8 && p - 8 in h.blks
    ensures
      var b, n := p - 8, Needed(size);
      var next := b + 8 + h.blks[b].size;
      var total := if next in h.blks && h.blks[next].free then h.blks[b].size + 8 + h.blks[next].size else h.blks[b].size;
      var (h1, r) := Realloc(h, Some(p), size, quick);
      && (n <= total ==> r == Some(p) && Portioned(h1.blks, b, total, n))
      && (n > total ==> r == Alloc(h, n, quick).1 && r != Some(p))
  {
    LivePlace(h, p);
    hide HeapOk, Live, InPool, Joined, InPlace, Portioned, Realloc, Move, Needed, Alloc;
    var b, n := p - HEAD, Needed(size);
    JoinedSize(h, b);
    ReallocBlkIs(h, p, size, quick);
    if n <= Joined(h.blks, b).size {
      InPlacePortioned(h, b, n);
    } else {
      MoveAsks(h, p, n, H(h.blks, b).size, quick);
    }
  }

  lemma LivePlace(h: Heap, p: Addr)
    requires Live(h, p) && !InPool(h, p)
    ensures p >= HEAD && p - HEAD in h.blks
  {
  }

  lemma JoinedSize(h: Heap, b: Addr)
    requires b in h.blks
    ensures var next := b + 8 + h.blks[b].size;
      Joined(h.blks, b).size == if next in h.blks && h.blks[next].free then h.blks[b].size + 8 + h.blks[next].size else h.blks[b].size
  {
  }

  lemma MoveAsks(h: Heap, p: Addr, n: nat, keep: nat, quick: bool)
    requires HeapOk(h) && Live(h, p)
    ensures Move(h, p, n, keep, quick).1 == Alloc(h, n, quick).1 && Alloc(h, n, quick).1 != Some(p)
  {
    hide HeapOk, Alloc, Free, Live;
    AllocIsSafe(h, n, quick);
  }

  /** A pool block stays where it is for every size up to 32; for others a new block is
      asked for. */
  lemma PoolReallocExact(h: Heap, p: Addr, size: nat, quick: bool)
    requires HeapOk(h) && Live(h, p) && InPool(h, p) && size > 0
    ensures size <= 32 ==> Realloc(h, Some(p), size, quick) == (h, Some(p))
    ensures size > 32 ==> Realloc(h, Some(p), size, quick).1 == Alloc(h, size, quick).1 != Some(p)
  {
    hide HeapOk, Alloc, Live, InPool, Free, ReallocBlk;
    if size > 32 { MoveAsks(h, p, size, POOL_BLK, quick); }
  }

  // ---- regions ------------------------------------------------------------------------------

  /** Of a new region of n bytes, all but four headers' worth of bookkeeping is one free
      block. */
  lemma NewRegionExact(h: Heap, a: Addr, n: nat)
    requires HeapOk(h) && Unused(h.regions, a, n) && RegionSize(a, n)
    ensures var h1 := NewRegion(h, a, n);
      && h1.blks.Keys == h.blks.Keys + {a, a + 16, a + n - 8} && a + 16 !in h.blks
      && h1.blks[a + 16].free && h1.blks[a + 16].size == n - 32
      && (forall x :: x in h.blks ==> h1.blks[x] == h.blks[x])
      && (forall x :: x in h1.blks && x !in h.blks && x != a + 16 ==> !h1.blks[x].free)
  {
    hide HeapOk, Framed, Unused, NewRegion, Insert, Grown;
    FramedReady(h, a, n);
    FramedBlks(h, a, n);
    FineTiled(h);
    GrownIs(h.blks, h.regions, a, n);
    InsertBlks(Framed(h, a, n), a + HEAD + INFO);
  }

  lemma InsertBlks(h: Heap, b: Addr)
    ensures Insert(h, b).blks == h.blks
  {
    hide Clobber, PtrCells;
  }

  /** Memory is added exactly if 64 bytes of it are left between aligned addresses. */
  lemma AddRegionIs(h: Heap, addr: nat, len: nat)
    requires addr + len < SIZE_SPAN && len >= (8 - addr % 8) % 8
    ensures AddRegion(h, addr, len).1 <==> len - (8 - addr % 8) % 8 >= 64
    ensures !AddRegion(h, addr, len).1 ==> AddRegion(h, addr, len).0 == h
  {
    hide NewRegion;
    var pad := (8 - addr % 8) % 8;
    StartIs(addr);
    assert (len - pad) % SIZE_SPAN == len - pad;
    assert Length(addr, len) == (len - pad) / 8 * 8;
  }

  lemma StartIs(addr: nat)
    requires addr <= SIZE_SPAN - ALIGN
    ensures Start(addr) - addr == (8 - addr % 8) % 8
  {
    assert (addr + ALIGN - 1) % SIZE_SPAN == addr + ALIGN - 1;
  }

  /** A fresh heap has its pool, all of whose 256 blocks are free, exactly if the pool fits
      into the memory behind the heap's own bookkeeping. */
  lemma InitPool(addr: nat, len: nat, headSize: nat, poolHead: nat, quick: bool)
    requires !BadInit(addr, len) && headSize + INFO + 3 * HEAD + ALIGN <= MIN_FREE_MEMORY && poolHead <= POOL_SIZE
    ensures
      var (h, n) := (Init(addr, len, headSize, poolHead, quick), FirstRegion(addr, len, headSize).1);
      && (h.pool.Pool? <==> Needed(8192 + AlignUp(poolHead)) <= n - 32)
      && (h.pool.Pool? ==> |h.pool.avail| == 256)
  {
    hide HeapOk, NewRegion, Alloc, Needed, AlignUp, Pow2, Slots;
    var (a, n) := FirstRegion(addr, len, headSize);
    FirstRegionFits(addr, len, headSize);
    FirstRegionBound(addr, len, headSize);
    EmptyHeap();
    NoneUsed(a, n);
    NewRegionExact(NO_HEAP, a, n);
    NewRegionIsSafe(NO_HEAP, a, n);
    NewRegionPool(NO_HEAP, a, n);
    var h := NewRegion(NO_HEAP, a, n);
    var size := POOL_SIZE + AlignUp(poolHead);
    AllocIsSafe(h, size, quick);
    OneBlock(h, a, n, Needed(size));
    SlotsAre(0);
    forall x ensures |Slots(x)| == 256 { SlotsAre(x); }
  }

  lemma SlotsAre(x: Addr)
    ensures |Slots(x)| == 256
  {
  }

  lemma NoneUsed(a: Addr, n: nat)
    requires RegionSize(a, n)
    ensures Unused(NO_HEAP.regions, a, n)
  {
  }

  lemma FirstRegionBound(addr: nat, len: nat, headSize: nat)
    requires !BadInit(addr, len) && headSize <= Length(addr, len)
    ensures FirstRegion(addr, len, headSize).1 <= Pow2(MAX_BIT)
  {
    hide Pow2;
  }

  lemma OneBlock(h: Heap, a: Addr, n: nat, k: nat)
    requires a + 16 in h.blks && h.blks[a + 16].free && 32 <= n <= Pow2(MAX_BIT) && h.blks[a + 16].size == n - 32
    requires forall x :: x in h.blks && x != a + 16 ==> !h.blks[x].free
    ensures (forall x :: !Serves(h.blks, x, k)) <==> k > n - 32
  {
    hide Pow2;
    if k <= n - 32 { assert Serves(h.blks, a + 16, k); }
  }

  // ---- the pool -------------------------------------------------------------------------------

  /** Requests of up to 32 bytes are served from the pool, with the block given back last, as
      long as it has one; all others, and larger ones, from elsewhere. */
  lemma PoolAllocExact(h: Heap, size: nat, quick: bool)
    requires HeapOk(h) && h.pool.Pool? && size > 0
    ensures size <= 32 && h.pool.avail != [] ==>
      Alloc(h, size, quick) == (h.(pool := h.pool.(avail := h.pool.avail[1..])), Some(h.pool.avail[0])) && InPool(h, h.pool.avail[0])
    ensures (size > 32 || h.pool.avail == []) && Alloc(h, size, quick).1.Some? ==> !InPool(h, Alloc(h, size, quick).1.value)
    ensures forall p :: InPool(h, p) ==> Free(h, Some(p)).pool == h.pool.(avail := [p] + h.pool.avail)
  {
    hide HeapOk, AllocBlk, Live, OthersKept, Serves, Needed;
    AllocIsSafe(h, size, quick);
  }
}
