/** Growing the heap, undoing an allocation, and whole runs. */
module HeapRuns {
  import opened Multiples
  import opened Options
  import opened HeapLevels
  import opened HeapTiling
  import opened HeapState
  import opened DoubleLinks
  import opened HeapIndex
  import opened HeapOperations
  import opened HeapSearch
  import opened HeapSafety
  import opened HeapRealloc
  import MblkPool

  // ---- a new region -------------------------------------------------------------------

  /** Memory that no region uses yet. */
  predicate Unused(r: Regions, a: Addr, n: nat) {
    forall s :: s in r ==> r[s] + HEAD <= a || a + n <= s
  }

  predicate RegionSize(a: Addr, n: nat) {
    a % ALIGN == 0 && n % ALIGN == 0 && n >= INFO + 3 * HEAD + MIN_SIZE
  }

  /** The blocks once the middle block of a new region is free. */
  function Grown(m: Blocks, a: Addr, n: nat): Blocks
    requires n >= INFO + 3 * HEAD
  {
    SetFree(m + Region(a, n), a + HEAD + INFO, true)
  }

  lemma OldOutside(m: Blocks, r: Regions, a: Addr, n: nat, x: Addr)
    requires Tiled(m, r) && Unused(r, a, n) && x in m
    ensures Nx(m, x) <= a || a + n <= x
  {
    assert InSome(m, r, x);
    var s :| Within(m, r, x, s);
    if !IsEnd(m, x) { InsideRegion(m, r, x, s); }
  }

  lemma GrownIs(m: Blocks, r: Regions, a: Addr, n: nat)
    requires Tiled(m, r) && Unused(r, a, n) && RegionSize(a, n)
    ensures var m1, mid, last := Grown(m, a, n), a + HEAD + INFO, a + n - HEAD;
      && a !in m && mid !in m && last !in m && m1.Keys == m.Keys + {a, mid, last}
      && m1[a] == Hdr(INFO, false, false, 0) && m1[mid] == Hdr(last - mid - HEAD, true, false, 0) && m1[last] == Hdr(0, false, true, mid)
      && forall x :: x in m ==> m1[x] == m[x]
  {
    forall x | x in {a, a + HEAD + INFO, a + n - HEAD} ensures x !in m {
      if x in m { OldOutside(m, r, a, n, x); }
    }
  }

  lemma GrownBlocks(m: Blocks, r: Regions, a: Addr, n: nat)
    requires Tiled(m, r) && Unused(r, a, n) && RegionSize(a, n)
    ensures BlocksOk(Grown(m, a, n), r[a := a + n - HEAD])
  {
    GrownIs(m, r, a, n);
    var m1, r1 := Grown(m, a, n), r[a := a + n - HEAD];
    forall s | s in r ensures s in m { assert RegionOk(m, r, s); }
    hide Grown, Tiled;
    forall x | x in m1 ensures BlockOk(m1, r1, x) {
      if x in m { OldBlock(m, r, m1, r1, a, x); } else { assert BlockOk(m1, r1, x); }
    }
  }

  lemma OldBlock(m: Blocks, r: Regions, m1: Blocks, r1: Regions, a: Addr, x: Addr)
    requires Tiled(m, r) && x in m && a !in m && r1.Keys == r.Keys + {a}
    requires forall y :: y in m ==> y in m1 && m1[y] == m[y]
    ensures BlockOk(m1, r1, x)
  {
    Neighbour(m, r, x);
    hide Tiled;
  }

  lemma GrownApart(m: Blocks, r: Regions, a: Addr, n: nat)
    requires Tiled(m, r) && Unused(r, a, n) && RegionSize(a, n)
    ensures AllApart(Grown(m, a, n))
  {
    GrownIs(m, r, a, n);
    var m1 := Grown(m, a, n);
    hide Grown;
    forall x, y | x in m1 && y in m1 ensures Apart(m1, x, y) {
      if x in m { OldOutside(m, r, a, n, x); }
      if y in m { OldOutside(m, r, a, n, y); }
      assert x in m && y in m ==> Apart(m, x, y);
    }
  }

  lemma GrownRegions(m: Blocks, r: Regions, a: Addr, n: nat)
    requires Tiled(m, r) && Unused(r, a, n) && RegionSize(a, n)
    ensures RegionsOk(Grown(m, a, n), r[a := a + n - HEAD])
  {
    GrownIs(m, r, a, n);
    var m1, r1 := Grown(m, a, n), r[a := a + n - HEAD];
    hide Grown, BlocksOk, AllApart, Housed;
    forall s | s in r1 ensures RegionOk(m1, r1, s) {
      if s != a { assert RegionOk(m, r, s); }
    }
    forall s, t | s in r1 && t in r1 ensures RegionsApart(r1, s, t) {
      if s != a { assert RegionOk(m, r, s); }
      if t != a { assert RegionOk(m, r, t); }
      assert s != a && t != a ==> RegionsApart(r, s, t);
    }
  }

  lemma GrownHoused(m: Blocks, r: Regions, a: Addr, n: nat)
    requires Tiled(m, r) && Unused(r, a, n) && RegionSize(a, n)
    ensures Housed(Grown(m, a, n), r[a := a + n - HEAD])
  {
    GrownIs(m, r, a, n);
    var m1, r1 := Grown(m, a, n), r[a := a + n - HEAD];
    hide Grown, BlocksOk, AllApart, RegionsOk;
    forall x | x in m1 ensures InSome(m1, r1, x) {
      if x in m {
        assert InSome(m, r, x);
        var s :| Within(m, r, x, s);
        StartWithin(m, r, s);
        assert Within(m1, r1, x, s);
      } else {
        assert Within(m1, r1, x, a);
      }
    }
  }

  lemma GrownTiled(m: Blocks, r: Regions, a: Addr, n: nat)
    requires Tiled(m, r) && Unused(r, a, n) && RegionSize(a, n)
    ensures Tiled(Grown(m, a, n), r[a := a + n - HEAD])
  {
    GrownBlocks(m, r, a, n);
    GrownApart(m, r, a, n);
    GrownRegions(m, r, a, n);
    GrownHoused(m, r, a, n);
  }

  /** The heap between writing the region's frame and listing its free block. */
  function Framed(h: Heap, a: Addr, n: nat): Heap
    requires n >= INFO + 3 * HEAD
  {
    MarkFree(Frame(h, a, n), a + HEAD + INFO, true)
  }

  /** Freeing a block between used ones. */
  lemma FreeAlone(h: Heap, b: Addr)
    requires !H(h.blks, Nx(h.blks, b)).free && !H(h.blks, b).prevFree
    ensures FreeBlk(h, b) == Insert(MarkFree(h, b, true), b)
  {
    assert !H(SetFree(h.blks, b, true), b).prevFree;
    hide Insert, Join, Delete, Clobber, HdrCells;
  }

  lemma FrameIs(h: Heap, a: Addr, n: nat)
    requires RegionSize(a, n)
    ensures var m, mid := Frame(h, a, n).blks, a + HEAD + INFO; Nx(m, mid) == a + n - HEAD && !H(m, mid).prevFree && !H(m, Nx(m, mid)).free
  {
    hide Clobber, Cells;
  }

  /** Writing the frame and freeing the middle block is listing it in a grown heap. */
  lemma NewRegionIs(h: Heap, a: Addr, n: nat)
    requires RegionSize(a, n)
    ensures NewRegion(h, a, n) == Insert(Framed(h, a, n), a + HEAD + INFO)
  {
    hide FreeBlk, Insert, MarkFree, Frame, Region, H, Nx;
    FrameIs(h, a, n);
    FreeAlone(Frame(h, a, n), a + HEAD + INFO);
  }

  lemma FramedBlks(h: Heap, a: Addr, n: nat)
    requires RegionSize(a, n)
    ensures var h1 := Framed(h, a, n);
      h1.blks == Grown(h.blks, a, n) && h1.lists == h.lists && h1.bits == h.bits && h1.pool == h.pool && h1.regions == h.regions[a := a + n - HEAD]
  {
    hide SetFree, Region, Clobber, Cells, HdrCells;
  }

  lemma FramedFine(h: Heap, a: Addr, n: nat)
    requires Fine(h) && Unused(h.regions, a, n) && RegionSize(a, n)
    ensures BlocksFine(Framed(h, a, n), {a + HEAD + INFO}) && Coalesced(Framed(h, a, n).blks)
  {
    var h1 := Framed(h, a, n);
    FineParts(h);
    FramedBlks(h, a, n);
    GrownTiled(h.blks, h.regions, a, n);
    GrownIs(h.blks, h.regions, a, n);
    GrownCoalesced(h, a, n);
    hide Tiled, Coalesced, Grown, IndexOk, Fine, Framed, Unused, RegionSize;
    ReshapeIndex(h, h1, {}, {a + HEAD + INFO});
  }

  lemma GrownCoalesced(h: Heap, a: Addr, n: nat)
    requires Fine(h) && Unused(h.regions, a, n) && RegionSize(a, n)
    ensures Coalesced(Grown(h.blks, a, n))
  {
    var m, m1 := h.blks, Grown(h.blks, a, n);
    GrownIs(m, h.regions, a, n);
    forall x | x in m1 ensures NextUsed(m1, x) {
      if x in m {
        Neighbour(m, h.regions, x);
        assert NextUsed(m, x);
      }
    }
  }

  lemma FramedKept(h: Heap, a: Addr, n: nat, q: Addr)
    requires HeapOk(h) && Unused(h.regions, a, n) && RegionSize(a, n)
    ensures Live(Framed(h, a, n), q) ==> Live(h, q)
    ensures Live(h, q) ==> Kept(h, Framed(h, a, n), q)
    ensures PoolOk(Framed(h, a, n))
  {
    hide Grown, Clobber, Cells, SetFree, HeapOk;
    var h1 := Framed(h, a, n);
    FramedMem(h, a, n);
    FramedBlks(h, a, n);
    HeapParts(h);
    FramedLive(h, h1, a, n, q);
    hide Framed;
    if Live(h, q) {
      var s := LiveInside(h, q);
      assert h.regions[s] + HEAD <= a || a + n <= s;
    }
  }

  lemma HeapParts(h: Heap)
    requires HeapOk(h)
    ensures Fine(h) && PoolOk(h)
  {
  }

  lemma FramedLive(h: Heap, h1: Heap, a: Addr, n: nat, q: Addr)
    requires PoolOk(h) && h1.pool == h.pool && Fine(h) && Unused(h.regions, a, n) && RegionSize(a, n)
    requires h1.blks == Grown(h.blks, a, n) && h1.regions == h.regions[a := a + n - HEAD]
    ensures PoolOk(h1) && Live(h1, q) == Live(h, q) && (Live(h, q) ==> Room(h1, q) == Room(h, q))
  {
    GrownIs(h.blks, h.regions, a, n);
    hide Grown, Fine;
  }

  lemma FramedMem(h: Heap, a: Addr, n: nat)
    requires RegionSize(a, n)
    ensures forall x: Addr :: !(a <= x < a + n) ==> Byte(Framed(h, a, n).mem, x) == Byte(h.mem, x)
  {
    assert Nx(h.blks + Region(a, n), a + HEAD + INFO) == a + n - HEAD;
  }

  lemma FramedReady(h: Heap, a: Addr, n: nat)
    requires HeapOk(h) && Unused(h.regions, a, n) && RegionSize(a, n)
    ensures var h1, mid := Framed(h, a, n), a + HEAD + INFO;
      && BlocksFine(h1, {mid}) && Coalesced(h1.blks) && PoolOk(h1) && mid in h1.blks && h1.blks[mid].free
      && NewRegion(h, a, n) == Insert(h1, mid) && h1.regions == h.regions[a := a + n - HEAD]
  {
    hide BlocksFine, Live, Kept, PoolOk, Coalesced, Insert, NewRegion, HeapOk, Fine, Framed, Grown;
    HeapParts(h);
    FramedFine(h, a, n);
    FramedBlks(h, a, n);
    NewRegionIs(h, a, n);
    GrownIs(h.blks, h.regions, a, n) by { FineTiled(h); }
    FramedKept(h, a, n, 0);
  }

  lemma FineTiled(h: Heap)
    requires HeapOk(h)
    ensures Tiled(h.blks, h.regions)
  {
  }

  /** Adding memory that no region uses keeps the heap well formed, and nobody notices. */
  lemma NewRegionIsSafe(h: Heap, a: Addr, n: nat)
    requires HeapOk(h) && Unused(h.regions, a, n) && RegionSize(a, n)
    ensures var h1 := NewRegion(h, a, n);
      && HeapOk(h1) && h1.regions == h.regions[a := a + n - HEAD]
      && (forall q {:trigger Live(h, q)} :: Live(h, q) ==> Kept(h, h1, q))
      && (forall q {:trigger Live(h1, q)} :: Live(h1, q) ==> Live(h, q))
  {
    hide HeapOk, BlocksFine, Coalesced, Live, Framed, NewRegion, Insert, Kept, PoolOk, Unused;
    var h1, mid := Framed(h, a, n), a + HEAD + INFO;
    FramedReady(h, a, n);
    ListedSafe(h1, mid);
    forall q | Live(h, q) ensures Kept(h, Insert(h1, mid), q) {
      FramedKept(h, a, n, q);
      KeptIs(h, h1, q);
      KeptTrans(h, h1, Insert(h1, mid), q);
    }
    forall q | Live(Insert(h1, mid), q) ensures Live(h, q) { FramedKept(h, a, n, q); }
  }

  /** Listing a free block changes nothing for anybody. */
  lemma ListedSafe(h: Heap, b: Addr)
    requires BlocksFine(h, {b}) && Coalesced(h.blks) && PoolOk(h) && b in h.blks && h.blks[b].free
    ensures var h1 := Insert(h, b); HeapOk(h1) && h1.regions == h.regions
    ensures forall q {:trigger Live(h, q)} :: Live(h, q) ==> Kept(h, Insert(h, b), q)
    ensures forall q {:trigger Live(Insert(h, b), q)} :: Live(Insert(h, b), q) ==> Live(h, q)
  {
    var h1 := Insert(h, b);
    assert {} + {b} == {b} && {} - {b} == {};
    InsertFine(h, b, b, {});
    forall q: Addr | Live(h, q) ensures Kept(h, h1, q) { ListedKept(h, h1, b, q); }
  }

  lemma ListedKept(h: Heap, h1: Heap, b: Addr, q: Addr)
    requires Step(h, h1, b, 0) && !Used(h.blks, b) && h1.blks == h.blks && PoolOk(h) && Live(h, q)
    ensures Kept(h, h1, q)
  {
    var o := if InPool(h, q) then h.pool.fix - HEAD else q - HEAD;
    assert Used(h.blks, o);
    assert Quiet(h.mem, h1.mem, o, H(h.blks, o).size);
  }

  /** The aligned region lies inside the memory given exactly when that memory reaches
      the first aligned address; for less, the length wraps around. */
  lemma RegionInside(addr: nat, len: nat)
    requires addr <= SIZE_SPAN - ALIGN && addr + len <= SIZE_SPAN
    ensures Start(addr) >= addr
    ensures (TooSmall(addr, len) || Start(addr) + Length(addr, len) <= addr + len) <==> len >= Start(addr) - addr
  {
  }

  // ---- krhino_init_mm_head -----------------------------------------------------------------

  lemma EmptyHeap()
    ensures HeapOk(NO_HEAP) && forall q {:trigger Live(NO_HEAP, q)} :: !Live(NO_HEAP, q)
  {
    forall l ensures LevelOk(NO_HEAP, l, {}) {}
  }

  lemma FirstRegionFits(addr: nat, len: nat, headSize: nat)
    requires !BadInit(addr, len) && headSize + INFO + 3 * HEAD + ALIGN <= MIN_FREE_MEMORY
    ensures var (a, n) := FirstRegion(addr, len, headSize); RegionSize(a, n) && a + n <= Start(addr) + Length(addr, len) && Start(addr) + headSize <= a
  {
    hide Pow2, AlignUp;
    RoundedApart(Length(addr, len), headSize);
  }

  lemma RoundedApart(len: nat, head: nat)
    requires len % ALIGN == 0 && head <= len && head < SIZE_SPAN - ALIGN
    ensures AlignUp(head) + (len - head) / ALIGN * ALIGN == len && AlignUp(head) >= head
  {
    assert (head + ALIGN - 1) % SIZE_SPAN == head + ALIGN - 1;
  }

  lemma AddPoolSafe(h: Heap, poolHead: nat, quick: bool)
    requires HeapOk(h) && h.pool.NoPool? && poolHead <= POOL_SIZE
    ensures HeapOk(AddPool(h, poolHead, quick))
    ensures forall q :: Live(AddPool(h, poolHead, quick), q) ==> Live(h, q)
  {
    var size := POOL_SIZE + AlignUp(poolHead);
    hide Alloc, HeapOk, Live, Room, Slots, OthersKept, Serves, PoolServes, AlignUp, Needed, Kept;
    var (h1, r) := Alloc(h, size, quick);
    AllocIsSafe(h, size, quick);
    if r.Some? {
      var p := r.value;
      NeededIsEnough(size);
      AllocKeepsPool(h, size, quick);
      assert OthersKeptLive(h, h1, p) by { LiveSame(h, h1, p); }
      PoolPlaced(h1, p, p + AlignUp(poolHead));
    }
  }

  ghost predicate OthersKeptLive(h: Heap, h1: Heap, p: Addr) {
    forall q :: Live(h1, q) && q != p ==> Live(h, q)
  }

  lemma LiveSame(h: Heap, h1: Heap, p: Addr)
    requires OthersKept(h, h1, p)
    ensures OthersKeptLive(h, h1, p)
  {
  }

  lemma AllocKeepsPool(h: Heap, size: nat, quick: bool)
    requires h.pool.NoPool?
    ensures Alloc(h, size, quick).0.pool == NoPool
  {
    hide Search, Needed, Level;
  }

  /** Turning a live buffer into the pool. */
  lemma PoolPlaced(h: Heap, p: Addr, start: Addr)
    requires HeapOk(h) && Live(h, p) && h.pool.NoPool? && p <= start && start + POOL_SIZE <= p + Room(h, p)
    ensures var h1 := h.(pool := Pool(p, start, Slots(start))); HeapOk(h1) && forall q :: Live(h1, q) ==> Live(h, q) && q != p
  {
    var h1 := h.(pool := Pool(p, start, Slots(start)));
    FineSame(h, h1);
    hide Fine;
    forall q | Live(h1, q) ensures Live(h, q) && q != p {
      if InPool(h1, q) { AllSlots(start, q); }
    }
  }

  /** Every pool block is handed out from the start. */
  lemma AllSlots(start: Addr, q: Addr)
    requires Slot(start, q)
    ensures q in Slots(start)
  {
    var i := (q - start) / POOL_BLK;
    assert Slots(start)[i] == q;
  }

  /** The pool in the heap is a pool of fixed-size blocks without a partial one. */
  lemma PoolIsMblk(start: Addr)
    requires start % ALIGN == 0
    ensures MblkPool.Check(start, POOL_BLK, POOL_SIZE) == MblkPool.Success
    ensures start + POOL_SIZE < MblkPool.SIZE_SPAN ==> MblkPool.Ends(start, POOL_BLK, POOL_SIZE)
    ensures var s := MblkPool.Init(start, POOL_BLK, POOL_SIZE); s.chain == Slots(start) && s.avail == |Slots(start)|
    ensures forall p :: MblkPool.Slot(MblkPool.Init(start, POOL_BLK, POOL_SIZE), p) <==> Slot(start, p)
  {
    hide MblkPool.Init, MblkPool.Check, MblkPool.Slot, Slots, Slot;
    PoolChecks(start);
    PoolChain(start);
    PoolSlots(start);
  }

  lemma PoolChecks(start: Addr)
    requires start % ALIGN == 0
    ensures MblkPool.Check(start, POOL_BLK, POOL_SIZE) == MblkPool.Success
  {
    assert start == start / 8 * 8;
    assert (start / 8 * 2) * 4 % 4 == 0 by { MulMod(start / 8 * 2, 4); }
    assert start % MblkPool.WORD == 0;
  }

  lemma PoolChain(start: Addr)
    ensures var s := MblkPool.Init(start, POOL_BLK, POOL_SIZE); s.chain == Slots(start) && s.avail == |Slots(start)|
  {
    assert MblkPool.Links(POOL_BLK, POOL_SIZE) == POOL_SIZE / POOL_BLK;
    assert MblkPool.Row(start, POOL_BLK, POOL_SIZE / POOL_BLK) == Slots(start);
  }

  lemma PoolSlots(start: Addr)
    ensures forall p :: MblkPool.Slot(MblkPool.Init(start, POOL_BLK, POOL_SIZE), p) <==> Slot(start, p)
  {
    hide MblkPool.Row, MblkPool.Links, MblkPool.Whole;
  }

  /** A fresh heap is well formed and nobody owns anything in it. */
  lemma InitIsSafe(addr: nat, len: nat, headSize: nat, poolHead: nat, quick: bool)
    requires !BadInit(addr, len) && headSize + INFO + 3 * HEAD + ALIGN <= MIN_FREE_MEMORY && poolHead <= POOL_SIZE
    ensures var h := Init(addr, len, headSize, poolHead, quick); HeapOk(h) && forall q :: !Live(h, q)
  {
    var (a, n) := FirstRegion(addr, len, headSize);
    FirstRegionFits(addr, len, headSize);
    EmptyHeap();
    hide HeapOk, NewRegion, AddPool, Live;
    NewRegionIsSafe(NO_HEAP, a, n);
    assert NewRegion(NO_HEAP, a, n).pool.NoPool? by { NewRegionPool(NO_HEAP, a, n); }
    AddPoolSafe(NewRegion(NO_HEAP, a, n), poolHead, quick);
  }

  lemma NewRegionPool(h: Heap, a: Addr, n: nat)
    requires RegionSize(a, n)
    ensures NewRegion(h, a, n).pool == h.pool
  {
    NewRegionIs(h, a, n);
    hide NewRegion;
  }

  // ---- free undoes alloc -------------------------------------------------------------------

  lemma {:induction false} UndoMark(m: Blocks, r: Regions, b: Addr)
    requires Tiled(m, r) && Plain(m, r, b) && m[b].free
    ensures SetFree(SetFree(m, b, false), b, true) == m
  {
    Neighbour(m, r, b);
  }

  lemma UndoSplit(m: Blocks, r: Regions, b: Addr, size: nat)
    requires Tiled(m, r) && CanSplit(m, r, b, size) && m[b].free
    ensures SetFree(Merge(Split(m, b, size), b), b, true) == m
  {
    Neighbour(m, r, b);
    SplitPlace(m, r, b, size);
    SplitSizes(m, r, b, size);
    var m1, n, c := Split(m, b, size), b + HEAD + size, Nx(m, b);
    assert m1 == m[b := m[b].(size := size, free := false)][n := Hdr(m[b].size - size - HEAD, true, false, b)][c := m[c].(prev := n)];
    hide Tiled, Split;
    var m2 := Merge(m1, b);
    assert Nx(m1, n) == c;
    assert m2[b] == m[b].(free := false) && m2[c] == m[c].(prevFree := false);
    assert m2 == m[b := m[b].(free := false)][c := m[c].(prevFree := false)];
  }

  lemma PrevNotFree(m: Blocks, r: Regions, b: Addr)
    requires Tiled(m, r) && Coalesced(m) && Plain(m, r, b) && m[b].free
    ensures !m[b].prevFree && !H(m, Nx(m, b)).free
  {
    var p := Before(m, r, b);
    assert NextUsed(m, p) && NextUsed(m, b);
  }

  /** What freeing does to the headers of a block whose predecessor is used. */
  lemma FreeBlkBlks(h: Heap, b: Addr)
    requires b in h.blks && !h.blks[b].prevFree && h.blks[b].size > 0
    ensures var m, c := h.blks, Nx(h.blks, b); FreeBlk(h, b).blks == SetFree(if H(m, c).free then Merge(m, b) else m, b, true)
  {
    var m := h.blks;
    var m1 := if H(m, Nx(m, b)).free then Merge(m, b) else m;
    assert JoinNext(h, b).blks == m1;
    assert !H(m1, b).prevFree && !H(SetFree(m1, b, true), b).prevFree;
    hide Merge, Clobber, SetFree, LinkCells, Level, HdrCells, Cells;
  }

  /** Giving an allocated block straight back restores every header. */
  lemma FreeUndoesAlloc(h: Heap, size: nat, quick: bool)
    requires HeapOk(h) && Alloc(h, size, quick).1.Some? && !PoolServes(h, size)
    ensures var (h1, r) := Alloc(h, size, quick); Free(h1, r).blks == h.blks && Free(h1, r).pool == h.pool
  {
    hide Alloc, AllocBlk, FreeBlk, Fine, Needed, Split, SetFree, Serves, Others, AllQuiet, PoolOk, OthersKept, Free, Live, InPool, Tiled;
    FineParts(h);
    NotFromPool(h, size, quick);
    var (h1, r) := AllocBlk(h, size, quick);
    AllocBlkFine(h, size, quick);
    TakenBlks(h, size, quick);
    var b := r.value - HEAD;
    FreshSafe(h, h1, b, Needed(size));
    FreePlain(h.blks, h.regions, b);
    UndoTake(h, h1, b, Needed(size));
    FreeKeepsPool(h1, b);
    FreeIsBlk(h, h1, r.value);
  }

  lemma FreePlain(m: Blocks, r: Regions, b: Addr)
    requires Tiled(m, r) && b in m && m[b].free
    ensures Plain(m, r, b)
  {
    Neighbour(m, r, b);
  }

  lemma NotFromPool(h: Heap, size: nat, quick: bool)
    requires Alloc(h, size, quick).1.Some? && !PoolServes(h, size)
    ensures size > 0 && Alloc(h, size, quick) == AllocBlk(h, size, quick)
  {
    hide AllocBlk;
  }

  lemma FreeIsBlk(h: Heap, h1: Heap, p: Addr)
    requires h1.pool == h.pool && !InPool(h, p) && p >= HEAD
    ensures Free(h1, Some(p)) == FreeBlk(h1, p - HEAD)
  {
    hide FreeBlk;
  }

  lemma UndoTake(h: Heap, h1: Heap, b: Addr, n: nat)
    requires Fine(h) && Plain(h.blks, h.regions, b) && h.blks[b].free && n % ALIGN == 0 && n >= MIN_SIZE
    requires h1.blks == if Cuttable(h.blks, b, n) then Split(h.blks, b, n) else SetFree(h.blks, b, false)
    ensures FreeBlk(h1, b).blks == h.blks
  {
    var m := h.blks;
    PrevNotFree(m, h.regions, b);
    Neighbour(m, h.regions, b);
    if Cuttable(m, b, n) {
      SplitPlace(m, h.regions, b, n);
      UndoSplit(m, h.regions, b, n);
      CutFree(h1.blks, m, b, n);
    } else {
      UndoMark(m, h.regions, b);
    }
    hide FreeBlk, Fine, Merge;
    FreeBlkBlks(h1, b);
  }

  lemma CutFree(m1: Blocks, m: Blocks, b: Addr, n: nat)
    requires b in m && m1 == Split(m, b, n) && Cuttable(m, b, n)
    ensures H(m1, Nx(m1, b)).free && m1[b].size == n && m1[b].prevFree == m[b].prevFree
  {
  }

  lemma FreeKeepsPool(h: Heap, b: Addr)
    ensures FreeBlk(h, b).pool == h.pool
  {
    hide Merge, SetFree, Clobber, LinkCells, Level, Without;
  }

  lemma TakenBlks(h: Heap, size: nat, quick: bool)
    requires AllocBlk(h, size, quick).1.Some?
    ensures var (h1, r) := AllocBlk(h, size, quick);
      r.value >= HEAD && h1.blks == (if Cuttable(h.blks, r.value - HEAD, Needed(size)) then Split(h.blks, r.value - HEAD, Needed(size)) else SetFree(h.blks, r.value - HEAD, false))
  {
    hide Search, Level, Needed, Take, Delete;
    var b := AllocBlk(h, size, quick).1.value - HEAD;
    TakeBlks(h, b, Needed(size));
  }

  lemma TakeBlks(h: Heap, b: Addr, n: nat)
    ensures Take(Delete(h, b), b, n).blks == (if Cuttable(h.blks, b, n) then Split(h.blks, b, n) else SetFree(h.blks, b, false))
  {
    hide Clobber, Split, SetFree, LinkCells, Without, Level;
  }

  // ---- runs ---------------------------------------------------------------------------------

  /** What can happen to a heap: requests, a region more, and users writing their bytes. */
  datatype Op =
    | Malloc(size: nat)
    | Release(p: Addr)
    | Resize(p: Addr, size: nat)
    | Extend(addr: nat, len: nat)
    | Write(p: Addr, i: nat, value: int)

  /** What the allocator demands of its callers. */
  predicate Legal(h: Heap, op: Op) {
    match op
    case Malloc(size) => size < SIZE_SPAN
    case Release(p) => Live(h, p)
    case Resize(p, size) => Live(h, p) && size < SIZE_SPAN
    case Extend(addr, len) => TooSmall(addr, len) || Unused(h.regions, Start(addr), Length(addr, len))
    case Write(p, i, value) => Live(h, p) && i < Room(h, p)
  }

  function Apply(h: Heap, op: Op, quick: bool): Heap {
    match op
    case Malloc(size) => Alloc(h, size, quick).0
    case Release(p) => Free(h, Some(p))
    case Resize(p, size) => Realloc(h, Some(p), size, quick).0
    case Extend(addr, len) => AddRegion(h, addr, len).0
    case Write(p, i, value) => h.(mem := h.mem[p + i := value])
  }

  /** The live address an operation is about. */
  predicate About(op: Op, q: Addr) { (op.Release? || op.Resize? || op.Write?) && op.p == q }

  predicate LegalRun(h: Heap, ops: seq<Op>, quick: bool)
    decreases |ops|
  {
    ops == [] || (Legal(h, ops[0]) && LegalRun(Apply(h, ops[0], quick), ops[1..], quick))
  }

  function Run(h: Heap, ops: seq<Op>, quick: bool): Heap
    decreases |ops|
  {
    if ops == [] then h else Run(Apply(h, ops[0], quick), ops[1..], quick)
  }

  lemma WriteIsSafe(h: Heap, p: Addr, i: nat, value: int)
    requires HeapOk(h) && Live(h, p) && i < Room(h, p)
    ensures var h1 := h.(mem := h.mem[p + i := value]); HeapOk(h1) && OthersKept(h, h1, p)
  {
    FineSame(h, h.(mem := h.mem[p + i := value]));
    hide Fine;
    forall q: Addr | Live(h, q) && q != p ensures Kept(h, h.(mem := h.mem[p + i := value]), q) {
      if q < p { LiveApart(h, q, p); } else { LiveApart(h, p, q); }
    }
  }

  lemma ApplyIsSafe(h: Heap, op: Op, quick: bool)
    requires HeapOk(h) && Legal(h, op)
    ensures HeapOk(Apply(h, op, quick))
    ensures forall q {:trigger Live(h, q)} :: Live(h, q) && !About(op, q) ==> Kept(h, Apply(h, op, quick), q)
  {
    hide HeapOk, Live, Kept, Alloc, Free, Realloc, NewRegion, Room, TooSmall, Unused, Serves, PoolServes;
    match op
    case Malloc(size) => MallocSafe(h, size, quick);
    case Release(p) => FreeIsSafe(h, p);
    case Resize(p, size) => ResizeSafe(h, p, size, quick);
    case Extend(addr, len) => ExtendSafe(h, addr, len);
    case Write(p, i, value) => WriteIsSafe(h, p, i, value);
  }

  lemma MallocSafe(h: Heap, size: nat, quick: bool)
    requires HeapOk(h)
    ensures var h1 := Alloc(h, size, quick).0; HeapOk(h1) && forall q {:trigger Live(h, q)} :: Live(h, q) ==> Kept(h, h1, q)
  {
    AllocIsSafe(h, size, quick);
    hide HeapOk, Live, Alloc, Room, Serves, PoolServes, SameBytes;
  }

  lemma ResizeSafe(h: Heap, p: Addr, size: nat, quick: bool)
    requires HeapOk(h) && Live(h, p) && size < SIZE_SPAN
    ensures var h1 := Realloc(h, Some(p), size, quick).0; HeapOk(h1) && forall q {:trigger Live(h, q)} :: Live(h, q) && q != p ==> Kept(h, h1, q)
  {
    if size == 0 { FreeIsSafe(h, p); } else { ReallocIsSafe(h, p, size, quick); }
    hide HeapOk, Live, Free, InPool, ReallocBlk, Move, Room, SameBytes, Needed;
  }

  lemma AlignedRegion(addr: nat, len: nat)
    requires !TooSmall(addr, len)
    ensures RegionSize(Start(addr), Length(addr, len))
  {
    hide AlignUp;
  }

  lemma ExtendSafe(h: Heap, addr: nat, len: nat)
    requires HeapOk(h) && (TooSmall(addr, len) || Unused(h.regions, Start(addr), Length(addr, len)))
    ensures var h1 := AddRegion(h, addr, len).0; HeapOk(h1) && forall q {:trigger Live(h, q)} :: Live(h, q) ==> Kept(h, h1, q)
  {
    hide NewRegion, HeapOk, Live, Kept;
    if TooSmall(addr, len) {
      forall q | Live(h, q) ensures Kept(h, h, q) { KeptRefl(h, q); }
    } else {
      AlignedRegion(addr, len);
      NewRegionIsSafe(h, Start(addr), Length(addr, len));
    }
  }

  /** Over every legal run the heap stays well formed, and a block that the run never
      mentions keeps its address, its size and every byte. */
  lemma {:induction false} RunIsSafe(h: Heap, ops: seq<Op>, quick: bool)
    requires HeapOk(h) && LegalRun(h, ops, quick)
    ensures HeapOk(Run(h, ops, quick))
    ensures forall q :: Live(h, q) && (forall i :: 0 <= i < |ops| ==> !About(ops[i], q)) ==> Kept(h, Run(h, ops, quick), q)
    decreases |ops|
  {
    hide HeapOk, Live, Legal, Apply, About, Kept;
    if ops == [] {
      forall q | Live(h, q) ensures Kept(h, h, q) { KeptRefl(h, q); }
    } else {
      var h1 := Apply(h, ops[0], quick);
      ApplyIsSafe(h, ops[0], quick);
      RunIsSafe(h1, ops[1..], quick);
      forall q | Live(h, q) && (forall i :: 0 <= i < |ops| ==> !About(ops[i], q)) ensures Kept(h, Run(h, ops, quick), q) {
        assert Kept(h, h1, q);
        KeptIs(h, h1, q);
        assert forall i :: 0 <= i < |ops[1..]| ==> ops[1..][i] == ops[i + 1];
        KeptTrans(h, h1, Run(h1, ops[1..], quick), q);
      }
    }
  }

  lemma KeptRefl(h: Heap, q: Addr)
    requires Live(h, q)
    ensures Kept(h, h, q)
  {
  }
}
