/** The allocator as it works in memory: headers, linked free lists and bitmap are
    rewritten step by step. Each method is proved against the heap's specification. */
module HeapImpl {
  import opened Lists
  import opened Options
  import opened HeapLevels
  import opened HeapTiling
  import opened HeapState
  import opened DoubleLinks
  import opened HeapIndex
  import opened HeapSearch
  import opened HeapOperations
  import opened HeapSafety
  import opened HeapRealloc
  import opened HeapRuns
  import opened HeapLinks
  import opened HeapWrites

  class Allocator {
    var blks: Blocks
    var regions: Regions
    var heads: map<int, Addr>
    var links: Links
    var bits: set<int>
    var pool: Pool
    var mem: Mem
    /** The free lists the links spell out. */
    ghost var lists: map<int, seq<Addr>>
    const quick: bool

    ghost function S(): Heap reads this { Heap(blks, regions, lists, bits, pool, mem) }

    /** Links and lists agree. */
    ghost predicate Spelled() reads this { Coupled(S(), heads, links) }

    ghost predicate Valid() reads this { HeapOk(S()) && Spelled() }

    /** Write a header. */
    method PutHdr(b: Addr, k: Hdr)
      requires Spelled()
      modifies `blks, `mem
      ensures S() == Written(old(S()), b, k) && Spelled()
    {
      ghost var h := S();
      blks := blks[b := k];
      mem := Clobber(mem, HdrCells(b));
      SameLists(h, S(), heads, links);
    }

    method FreelistInsert(b: Addr, ghost skip: set<Addr>)
      requires Spelled() && IndexOk(S(), skip) && b in skip && b != NULL
      modifies `heads, `links, `bits, `mem, `lists
      ensures S() == Insert(old(S()), b) && Spelled()
    {
      ghost var h := S();
      var level := Level(H(blks, b).size);
      if level < 0 || level >= LEVELS { return; }
      InsertCoupled(h, heads, links, b, skip);
      assert ListIn(h, heads, links, level) && LevelOk(h, level, skip);
      var head := HeadOf(heads, level);
      assert List(h, level) != [] ==> head == List(h, level)[0] && head != NULL by { if List(h, level) != [] { assert head == List(h, level)[0]; } }
      links := links[b := Link(NULL, head)];
      mem := Clobber(mem, PtrCells(b));
      if head != NULL {
        links := SetPrev(links, head, b);
        mem := Clobber(mem, PtrCells(head));
        ClobberTwice(h.mem, PtrCells(b), PtrCells(head));
      }
      heads := heads[level := b];
      bits := bits + {level};
      lists := lists[level := [b] + List(h, level)];
      assert head == NULL ==> PtrCells(b) + {} == PtrCells(b);
    }

    /** Link b's neighbours to each other. */
    method BypassBlk(b: Addr)
      requires L(links, b).next != b && L(links, b).prev != b
      modifies `links, `mem
      ensures Unlink(old(links), b) == links[b := Link(NULL, NULL)] && L(links, b) == old(L(links, b))
      ensures var n, p := L(links, b).next, L(links, b).prev;
        var m1 := if n != NULL then Clobber(old(mem), PtrCells(n)) else old(mem);
        mem == if p != NULL then Clobber(m1, PtrCells(p)) else m1
    {
      hide Clobber, PtrCells;
      var next, prev := L(links, b).next, L(links, b).prev;
      if next != NULL {
        links := SetPrev(links, next, prev);
        mem := Clobber(mem, PtrCells(next));
      }
      if prev != NULL {
        links := SetNext(links, prev, L(links, b).next);
        mem := Clobber(mem, PtrCells(prev));
      }
    }

    method FreelistDelete(b: Addr, ghost skip: set<Addr>)
      requires Spelled() && IndexOk(S(), skip) && b in blks && blks[b].free && b !in skip
      modifies `heads, `links, `bits, `mem, `lists
      ensures S() == Delete(old(S()), b) && Spelled()
    {
      ghost var h := S();
      var level := Level(H(blks, b).size);
      if level < 0 || level >= LEVELS { return; }
      ghost var q := List(h, level);
      DeleteReads(h, heads, links, b, skip);
      hide Coupled, IndexOk, PtrCells, LinkCells, Without, Level, Clobber, First, Spells, NoDup;
      ghost var next, prev := L(links, b).next, L(links, b).prev;
      BypassBlk(b);
      if HeadOf(heads, level) == b {
        heads := heads[level := L(links, b).next];
        if HeadOf(heads, level) == NULL {
          bits := bits - {level};
        }
      }
      links := links[b := Link(NULL, NULL)];
      mem := Clobber(mem, PtrCells(b));
      DeleteClobbers(h.mem, q, b, next, prev);
      lists := lists[level := Without(q, b)];
    }

    /** `find_up_level` */
    method FindUpLevel(level: nat) returns (b: Addr)
      requires Spelled() && IndexOk(S(), {}) && level < LEVELS
      ensures Found(b) == FindUp(S(), level)
    {
      hide Coupled, IndexOk;
      var l := FirstBit(bits, level + 1);
      FirstBitIs(bits, level + 1);
      if l < LEVELS {
        HeadReads(S(), heads, links, l, {});
        b := HeadOf(heads, l);
      } else {
        b := NULL;
      }
    }

    /** The scan of one level's list. */
    method FindSameLevel(level: nat, size: nat) returns (b: Addr)
      requires Spelled() && IndexOk(S(), {}) && level < LEVELS
      ensures Found(b) == FirstFit(blks, List(S(), level), size)
    {
      hide Coupled, IndexOk;
      ghost var q := List(S(), level);
      HeadReads(S(), heads, links, level, {});
      b := HeadOf(heads, level);
      ghost var i := 0;
      while b != NULL
        invariant 0 <= i <= |q| && b == At(q, i) && (b == NULL <==> i == |q|)
        invariant FirstFit(blks, q, size) == FirstFit(blks, q[i..], size)
        decreases |q| - i
      {
        assert q[i..][0] == q[i] && q[i..][1..] == q[i + 1..];
        if H(blks, b).size >= size { break; }
        assert L(links, q[i]) == Link(At(q, i - 1), At(q, i + 1));
        b := L(links, b).next;
        i := i + 1;
        assert i < |q| ==> q[i] != NULL;
      }
    }

    /** The second half of `k_mm_alloc`: the block found is split or handed out whole. */
    method TakeBlk(b: Addr, n: nat)
      requires Spelled() && Fine(S()) && Serves(blks, b, n) && n % ALIGN == 0 && n >= MIN_SIZE
      modifies `blks, `mem, `heads, `links, `bits, `lists
      ensures S() == Take(Delete(old(S()), b), b, n) && Spelled()
    {
      hide Coupled, IndexOk, Delete, Insert, Clobber, HdrCells, SetFree, Split, Tiled, Coalesced, MarkFree, Cut;
      ghost var h := S();
      FreeBlock(h, b);
      FreelistDelete(b, {});
      ghost var h1 := S();
      DeleteFine(h, b, b, {});
      ReadyToTake(h1, b, n);
      var next := Nx(blks, b);
      if H(blks, b).size >= n + HEAD + MIN_SIZE {
        var left := H(blks, b).size - n - HEAD;
        PutHdr(b, H(blks, b).(size := n, free := false));
        var rest := Nx(blks, b);
        PutHdr(rest, Hdr(left, true, false, b));
        PutHdr(next, H(blks, next).(prev := rest));
        CutWritten(h1, b, n);
        CutFine(h1, b, n, {b});
        assert {b} - {b} + {rest} == {rest};
        FreelistInsert(rest, {rest});
        TrimRewritten(h1, b, n);
      } else {
        PutHdr(next, H(blks, next).(prevFree := false));
        UsedWritten(h1, b);
      }
      PutHdr(b, H(blks, b).(free := false));
    }

    /** `k_mm_alloc` */
    method Alloc(size: nat) returns (ptr: Option<Addr>)
      requires Valid() && size < SIZE_SPAN
      modifies this
      ensures Valid() && (S(), ptr) == HeapState.Alloc(old(S()), size, quick)
    {
      hide HeapOk, Coupled, Take, Level, Needed, InPool, Search, PoolOk, Live, OthersKept, Room, Serves, Fine, Delete, IndexOk;
      ghost var h := S();
      ptr := None;
      AllocIsSafe(h, size, quick);
      if size == 0 { return; }
      if pool.Pool? && size <= POOL_BLK && pool.avail != [] {
        ptr := Some(pool.avail[0]);
        pool := pool.(avail := pool.avail[1..]);
        SameLists(h, S(), heads, links);
        return;
      }
      var n := Needed(size);
      var level := Level(n);
      if level == -1 { return; }
      IndexOf(h);
      var b: Addr;
      if quick {
        b := FindUpLevel(level);
        if b == NULL { b := FindSameLevel(level, n); }
      } else {
        b := FindSameLevel(level, n);
        if b == NULL { b := FindUpLevel(level); }
      }
      assert Found(b) == Search(h, n, quick) by { SearchIs(h, n, quick); }
      if b == NULL { return; }
      SearchIsExact(h, n, quick);
      TakeBlk(b, n);
      ptr := Some(b + HEAD);
    }

    /** The block c is part of b from now on. */
    method AbsorbBlk(b: Addr, c: Addr)
      requires Spelled()
      modifies `blks, `mem
      ensures S() == Absorb(old(S()), b, c) && Spelled()
    {
      hide Coupled, Clobber, HdrCells;
      PutHdr(b, H(blks, b).(size := H(blks, b).size + HEAD + H(blks, c).size));
      ghost var h := S();
      blks := blks - {c};
      SameLists(h, S(), heads, links);
    }

    /** `k_mm_free` for a block that is not from the pool. */
    method FreeBlk(thisBlk: Addr)
      requires Spelled() && FreeReady(S(), thisBlk) && IndexOk(S(), {})
      modifies `blks, `mem, `heads, `links, `bits, `lists
      ensures S() == HeapState.FreeBlk(old(S()), thisBlk) && Spelled()
    {
      hide Coupled, IndexOk, Absorb, Join, Delete, Insert, MarkFree, Lags, JoinNext, JoinPrev, Clobber, HdrCells;
      ghost var h := S();
      var b := thisBlk;
      FreedIndex(h, b);
      ForwardIndex(h, b);
      ForwardBlks(h, b);
      ForwardLags(h, b);
      PutHdr(b, H(blks, b).(free := true));
      var next := Nx(blks, b);
      if H(blks, next).free {
        FreelistDelete(next, {b});
        AbsorbBlk(b, next);
      }
      ghost var h1 := S();
      assert h1 == Forward(h, b);
      BackwardIndex(h1, b);
      BackwardLags(h1, MarkFree(JoinNext(h, b), b, true), b) by { LagsAt(h1, MarkFree(JoinNext(h, b), b, true), b); }
      if H(blks, b).prevFree {
        var prev := H(blks, b).prev;
        FreelistDelete(prev, {b});
        AbsorbBlk(prev, b);
        b := prev;
      }
      ghost var h2 := S();
      ghost var spec := JoinPrev(MarkFree(JoinNext(h, thisBlk), thisBlk, true), thisBlk).0;
      assert (h2, b) == Backward(h1, thisBlk);
      LagsAt(h2, spec, b);
      FreelistInsert(b, {b});
      LagInsert(h2, spec, b);
      LagEnd(S(), Insert(spec, b), b);
      next := Nx(blks, b);
      PutHdr(next, H(blks, next).(prev := b, prevFree := true));
    }

    /** `krhino_mblk_check` */
    predicate MblkCheck(p: Addr)
      reads this
      ensures MblkCheck(p) == InPool(S(), p)
    {
      pool.Pool? && pool.start <= p < pool.start + POOL_SIZE
    }

    /** `k_mm_smallblk_free` */
    method SmallBlkFree(p: Addr)
      requires Spelled() && pool.Pool?
      modifies `pool, `mem
      ensures S() == PoolFree(old(S()), p) && Spelled()
    {
      ghost var h := S();
      mem := Clobber(mem, Cells(p, LINK));
      pool := pool.(avail := [p] + pool.avail);
      SameLists(h, S(), heads, links);
    }

    /** `k_mm_free` */
    method Free(ptr: Option<Addr>)
      requires Valid() && (ptr.Some? ==> Live(S(), ptr.value))
      modifies `blks, `mem, `heads, `links, `bits, `lists, `pool
      ensures Valid() && S() == HeapState.Free(old(S()), ptr)
    {
      hide HeapOk, Coupled, IndexOk, Live, HeapState.FreeBlk, OthersKept, FreeReady;
      if ptr.None? { return; }
      ghost var h := S();
      FreeIsSafe(h, ptr.value);
      if MblkCheck(ptr.value) {
        SmallBlkFree(ptr.value);
      } else {
        LiveHead(h, ptr.value);
        IndexOf(h);
        LiveReady(h, ptr.value - HEAD);
        FreeBlk(ptr.value - HEAD);
      }
    }

    /** `k_mm_realloc`, new size no larger than the old: the block stays where it is. */
    method ShrinkBlk(b: Addr, n: nat)
      requires Spelled() && HeapOk(S()) && Live(S(), b + HEAD) && !InPool(S(), b + HEAD)
      requires n % ALIGN == 0 && MIN_SIZE <= n <= H(blks, b).size
      modifies `blks, `mem, `heads, `links, `bits, `lists
      ensures S() == InPlace(old(S()), b, n) && Spelled()
    {
      hide Coupled, IndexOk, Delete, Insert, Join, Cut, Live, PoolOk, BlocksFine, Coalesced, Clobber, HdrCells;
      ghost var h := S();
      ResizeReady(h, b);
      var size, next := H(blks, b).size, Nx(blks, b);
      if H(blks, next).free {
        ShrinkSplits(h, b, n);
        SwallowWritten(Delete(h, next), b, n) by { DeleteRest(h, next); }
        DeleteRest(h, next);
        FreelistDelete(next, {});
        size := size + HEAD + H(blks, next).size;
        var after := Nx(blks, next);
        DropHdr(next);
        next := after;
      }
      if size >= n + HEAD + MIN_SIZE {
        CutReady(h, b, n) by { assert Cuttable(JoinNext(h, b).blks, b, n); }
        if !H(h.blks, Nx(h.blks, b)).free { ShrinkWritten(h, b, n); }
        PutHdr(b, H(blks, b).(size := n));
        var rest := Nx(blks, b);
        PutHdr(rest, Hdr(size - n - HEAD, true, false, b));
        PutHdr(next, H(blks, next).(prev := rest, prevFree := true));
        assert S() == Cut(JoinNext(h, b), b, n);
        FreelistInsert(rest, {rest});
      }
    }

    /** A header that its block has lost. */
    method DropHdr(b: Addr)
      requires Spelled()
      modifies `blks
      ensures blks == old(blks) - {b} && Spelled()
    {
      ghost var h := S();
      blks := blks - {b};
      SameLists(h, S(), heads, links);
    }

    /** `k_mm_realloc`, larger than the old but not than the block with its free successor. */
    method GrowBlk(b: Addr, n: nat)
      requires Spelled() && HeapOk(S()) && Live(S(), b + HEAD) && !InPool(S(), b + HEAD)
      requires n % ALIGN == 0 && n >= MIN_SIZE && H(blks, Nx(blks, b)).free
      modifies `blks, `mem, `heads, `links, `bits, `lists
      ensures S() == InPlace(old(S()), b, n) && Spelled()
    {
      hide Coupled, IndexOk, Delete, Insert, Join, Cut, Live, PoolOk, BlocksFine, Coalesced, Clobber, HdrCells;
      ghost var h := S();
      ResizeReady(h, b);
      var next := Nx(blks, b);
      DeleteRest(h, next);
      JoinWritten(Delete(h, next), b);
      FreelistDelete(next, {});
      AbsorbBlk(b, next);
      next := Nx(blks, b);
      PutHdr(next, H(blks, next).(prev := b, prevFree := false));
      ghost var h1 := S();
      assert h1 == JoinNext(h, b);
      JoinNextFine(h, b);
      if H(blks, b).size >= n + HEAD + MIN_SIZE {
        var left := H(blks, b).size - n - HEAD;
        CutReady(h, b, n);
        ShrinkWritten(h1, b, n);
        PutHdr(b, H(blks, b).(size := n));
        var rest := Nx(blks, b);
        PutHdr(rest, Hdr(left, true, false, b));
        PutHdr(next, H(blks, next).(prev := rest, prevFree := true));
        FreelistInsert(rest, {rest});
      }
    }

    /** `k_mm_realloc` */
    method Realloc(oldmem: Option<Addr>, newSize: nat) returns (ptr: Option<Addr>)
      requires Valid() && newSize < SIZE_SPAN && (oldmem.Some? ==> Live(S(), oldmem.value))
      modifies this
      ensures Valid() && (S(), ptr) == HeapState.Realloc(old(S()), oldmem, newSize, quick)
    {
      hide HeapOk, Coupled, Live, HeapState.Alloc, HeapState.Free, JoinNext, Moved, InPlace, Needed;
      ghost var h := S();
      if oldmem.None? {
        ptr := Alloc(newSize);
        return;
      }
      if newSize == 0 {
        Free(oldmem);
        return None;
      }
      var p := oldmem.value;
      ReallocIsSafe(h, p, newSize, quick);
      if MblkCheck(p) {
        if newSize <= POOL_BLK { return oldmem; }
        ptr := MoveBlk(p, newSize, POOL_BLK);
        return;
      }
      LiveHead(h, p);
      var b, n := p - HEAD, Needed(newSize);
      ReallocBlkIs(h, p, newSize, quick);
      if n <= H(blks, b).size {
        ShrinkBlk(b, n);
        ptr := oldmem;
      } else if H(blks, Nx(blks, b)).free && n <= H(blks, b).size + HEAD + H(blks, Nx(blks, b)).size {
        GrowBlk(b, n);
        ptr := oldmem;
      } else {
        Aligned(newSize);
        ptr := MoveBlk(p, n, H(blks, b).size);
      }
    }

    /** The slow path: allocate, copy, free. */
    method MoveBlk(p: Addr, size: nat, keep: nat) returns (ptr: Option<Addr>)
      requires Valid() && Live(S(), p) && 0 < size < SIZE_SPAN && keep <= Room(S(), p)
      requires keep <= Needed(size) && (size <= POOL_BLK ==> keep <= size)
      modifies this
      ensures Valid() && (S(), ptr) == Move(old(S()), p, size, keep, quick)
    {
      hide HeapOk, Coupled, Live, HeapState.Alloc, HeapState.Free, Needed, Room, Copy, OthersKept;
      ghost var h := S();
      ptr := Alloc(size);
      if ptr.None? { return; }
      MoveReady(h, p, size, keep, quick);
      ghost var h1 := S();
      mem := Copy(mem, ptr.value, p, keep);
      SameLists(h1, S(), heads, links);
      Free(Some(p));
    }

    /** `init_mm_region`, on memory set to zero. */
    method InitRegion(a: Addr, n: nat)
      requires Spelled() && RegionSize(a, n) && a !in blks && a + HEAD + INFO !in blks && a + n - HEAD !in blks
      modifies `blks, `regions, `mem
      ensures S() == Frame(old(S()), a, n) && Spelled()
    {
      hide Coupled, Clobber, Cells, HdrCells, Region;
      ghost var h := S();
      var mid, last := a + HEAD + INFO, a + n - HEAD;
      FrameWritten(h, a, n);
      mem := Clobber(mem, Cells(a, n));
      regions := regions[a := last];
      SameLists(h, S(), heads, links);
      PutHdr(a, Hdr(INFO, false, false, 0));
      PutHdr(mid, Hdr(last - mid - HEAD, false, false, 0));
      PutHdr(last, Hdr(0, false, true, mid));
    }

    /** A region and its free block. */
    method Extend(a: Addr, n: nat)
      requires Valid() && Unused(regions, a, n) && RegionSize(a, n)
      modifies this
      ensures Valid() && S() == NewRegion(old(S()), a, n)
    {
      hide Coupled, HeapOk, Frame, FreeReady, HeapState.FreeBlk, IndexOk, Live, Kept;
      ghost var h := S();
      RegionPlaced(h, a, n);
      NewRegionIsSafe(h, a, n);
      InitRegion(a, n);
      FreeBlk(a + HEAD + INFO);
    }

    /** `krhino_add_mm_region`; false for RHINO_MM_POOL_SIZE_ERR. */
    method AddMmRegion(addr: nat, len: nat) returns (ok: bool)
      requires Valid() && (TooSmall(addr, len) || Unused(regions, Start(addr), Length(addr, len)))
      modifies this
      ensures Valid() && (S(), ok) == AddRegion(old(S()), addr, len)
    {
      hide Coupled, HeapOk, NewRegion;
      var a, n := Start(addr), Length(addr, len);
      if n == 0 || n < INFO + HEAD * 3 + MIN_SIZE { return false; }
      AlignedRegion(addr, len);
      Extend(a, n);
      ok := true;
    }

    constructor (addr: nat, len: nat, headSize: nat, poolHead: nat, quick: bool)
      requires !BadInit(addr, len) && headSize + INFO + 3 * HEAD + ALIGN <= MIN_FREE_MEMORY && poolHead <= POOL_SIZE
      ensures Valid() && S() == Init(addr, len, headSize, poolHead, quick)
    {
      hide HeapOk, Coupled, NewRegion, AddPool, Live;
      this.quick := quick;
      blks, regions, heads, links, bits, pool, mem, lists := map[], map[], map[], map[], {}, NoPool, map[], map[];
      new;
      var (a, n) := FirstRegion(addr, len, headSize);
      EmptyHeap();
      EmptyLists();
      FirstRegionFits(addr, len, headSize);
      Extend(a, n);
      NewRegionPool(NO_HEAP, a, n);
      InitPool(poolHead);
    }

    /** The pool gets a buffer of its own, if there is one. */
    method InitPool(poolHead: nat)
      requires Valid() && pool.NoPool? && poolHead <= POOL_SIZE
      modifies this
      ensures Valid() && S() == AddPool(old(S()), poolHead, quick)
    {
      hide HeapOk, Coupled, HeapState.Alloc, Live, Slots;
      ghost var h := S();
      AddPoolSafe(h, poolHead, quick);
      PoolRequest(poolHead);
      var p := Alloc(POOL_SIZE + AlignUp(poolHead));
      AllocNone(h, POOL_SIZE + AlignUp(poolHead), quick);
      if p.Some? {
        ghost var h1 := S();
        pool := Pool(p.value, p.value + AlignUp(poolHead), Slots(p.value + AlignUp(poolHead)));
        SameLists(h1, S(), heads, links);
      }
    }
  }

  /** `krhino_init_mm_head`; null for RHINO_MM_POOL_SIZE_ERR. */
  method InitMmHead(addr: nat, len: nat, headSize: nat, poolHead: nat, quick: bool) returns (head: Allocator?)
    requires headSize + INFO + 3 * HEAD + ALIGN <= MIN_FREE_MEMORY && poolHead <= POOL_SIZE
    ensures head == null <==> BadInit(addr, len)
    ensures head != null ==> fresh(head) && head.Valid() && head.S() == Init(addr, len, headSize, poolHead, quick)
  {
    hide *;
    var n := Length(addr, len);
    LegalSize(addr, len);
    if n == 0 || n < MIN_FREE_MEMORY + POOL_SIZE || n > Pow2(MAX_BIT) { return null; }
    head := new Allocator(addr, len, headSize, poolHead, quick);
  }

  lemma LegalSize(addr: nat, len: nat)
    ensures var n := Length(addr, len); BadInit(addr, len) <==> n == 0 || n < MIN_FREE_MEMORY + POOL_SIZE || n > Pow2(MAX_BIT)
  {
  }
}
