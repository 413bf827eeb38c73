/** The allocator's operations keep the heap well formed and leave other blocks alone. */
module HeapOperations {
  import opened HeapLevels
  import opened HeapTiling
  import opened HeapState
  import opened DoubleLinks
  import opened HeapIndex

  /** Blocks tile the regions, no two neighbours are free, and the lists index the free blocks. */
  ghost predicate BlocksFine(h: Heap, skip: set<Addr>) {
    Tiled(h.blks, h.regions) && IndexOk(h, skip)
  }

  /** Every block but the first of its region has one before it. */
  lemma Before(m: Blocks, r: Regions, b: Addr) returns (p: Addr)
    requires Tiled(m, r) && b in m && !IsStart(r, b)
    ensures p in m && !IsEnd(m, p) && Nx(m, p) == b
    ensures H(m, b).prevFree ==> Plain(m, r, p) && m[p].free && H(m, b).prev == p
  {
    assert InSome(m, r, b);
    var s :| Within(m, r, b, s);
    StartWithin(m, r, s);
    p := Covered(m, r, s, s, b - 1);
    assert Apart(m, p, b) && Apart(m, b, p);
    Neighbour(m, r, p);
  }

  lemma StartWithin(m: Blocks, r: Regions, s: Addr)
    requires Tiled(m, r) && s in r
    ensures s in m && Within(m, r, s, s)
  {
    assert RegionOk(m, r, s);
    assert InSome(m, r, s);
    var t :| Within(m, r, s, t);
    if t != s { OtherRegion(m, r, t, s, s); }
  }

  // ---- the primitive steps ----------------------------------------------------------

  lemma DeleteFine(h: Heap, x: Addr, b: Addr, skip: set<Addr>)
    requires BlocksFine(h, skip) && x in h.blks && h.blks[x].free
    ensures BlocksFine(Delete(h, x), skip + {x}) && Delete(h, x).blks == h.blks
    ensures Step(h, Delete(h, x), b, Keep(h.blks, b))
  {
    DeleteIndex(h, x, skip);
    DeleteStep(h, x, b, skip);
    hide Step, Delete, IndexOk;
  }

  lemma InsertFine(h: Heap, x: Addr, b: Addr, skip: set<Addr>)
    requires BlocksFine(h, skip + {x}) && x in h.blks && h.blks[x].free
    ensures BlocksFine(Insert(h, x), skip - {x}) && Insert(h, x).blks == h.blks
    ensures Step(h, Insert(h, x), b, Keep(h.blks, b))
  {
    InsertIndex(h, x, skip);
    InsertStep(h, x, b, skip + {x});
    hide Step, Insert, IndexOk;
  }

  lemma MarkFreeFine(h: Heap, b: Addr, f: bool, skip: set<Addr>)
    requires BlocksFine(h, skip) && Plain(h.blks, h.regions, b)
    requires b in skip || !h.blks[b].free
    ensures BlocksFine(MarkFree(h, b, f), if f then skip + {b} else skip - {b})
    ensures Step(h, MarkFree(h, b, f), b, Keep(h.blks, b))
    ensures Plain(MarkFree(h, b, f).blks, h.regions, b) && H(MarkFree(h, b, f).blks, b) == H(h.blks, b).(free := f)
  {
    var h1 := MarkFree(h, b, f);
    Neighbour(h.blks, h.regions, b);
    SetFreeTiled(h.blks, h.regions, b, f);
    MarkFreeStep(h, b, f);
    hide Tiled, IndexOk, Step, BlockOk;
    ReshapeIndex(h, h1, skip, if f then skip + {b} else skip - {b});
  }

  lemma JoinFine(h: Heap, b: Addr, skip: set<Addr>)
    requires BlocksFine(h, skip) && CanMerge(h.blks, h.regions, b) && Nx(h.blks, b) in skip
    requires b in skip || !h.blks[b].free
    ensures BlocksFine(Join(h, b), skip - {Nx(h.blks, b)})
    ensures var h1, k := Join(h, b), H(h.blks, b); Plain(h1.blks, h.regions, b) && H(h1.blks, b) == k.(size := k.size + HEAD + H(h.blks, Nx(h.blks, b)).size)
  {
    var h1, c := Join(h, b), Nx(h.blks, b);
    Neighbour(h.blks, h.regions, b);
    Neighbour(h.blks, h.regions, c);
    MergeTiled(h.blks, h.regions, b);
    MergeSizes(h.blks, h.regions, b);
    hide Tiled, IndexOk, BlockOk, BlocksOk, AllApart, SameFrame;
    ReshapeIndex(h, h1, skip, skip - {c});
  }

  lemma CutFine(h: Heap, b: Addr, size: nat, skip: set<Addr>)
    requires BlocksFine(h, skip) && CanSplit(h.blks, h.regions, b, size)
    requires b in skip || !h.blks[b].free
    ensures BlocksFine(Cut(h, b, size), skip - {b} + {b + HEAD + size})
    ensures var h1 := Cut(h, b, size); Plain(h1.blks, h.regions, b) && H(h1.blks, b) == H(h.blks, b).(size := size, free := false)
    ensures FreeAt(Cut(h, b, size).blks, Level(H(h.blks, b).size - size - HEAD), b + HEAD + size)
  {
    var h1, n := Cut(h, b, size), b + HEAD + size;
    SplitTiled(h.blks, h.regions, b, size);
    SplitPlace(h.blks, h.regions, b, size);
    hide Tiled, IndexOk;
    var skip1 := skip - {b} + {n};
    forall l, x ensures FreeAt(h1.blks, l, x) && x !in skip1 <==> FreeAt(h.blks, l, x) && x !in skip {
      assert x != b && x != n ==> (x in h1.blks <==> x in h.blks) && (x in h.blks ==> h1.blks[x].free == h.blks[x].free && h1.blks[x].size == h.blks[x].size);
    }
    ReshapeIndex(h, h1, skip, skip1);
  }

  // ---- free neighbours -----------------------------------------------------------------

  /** Only before b may two free blocks meet. */
  ghost predicate CoalescedBut(m: Blocks, b: Addr) {
    forall x {:trigger NextUsed(m, x)} :: x in m ==> Nx(m, x) == b || NextUsed(m, x)
  }

  lemma SplitCoalesced(m: Blocks, r: Regions, b: Addr, size: nat)
    requires Tiled(m, r) && Coalesced(m) && CanSplit(m, r, b, size) && !H(m, Nx(m, b)).free
    ensures Coalesced(Split(m, b, size))
  {
    var m1, n := Split(m, b, size), b + HEAD + size;
    SplitPlace(m, r, b, size);
    SplitSizes(m, r, b, size);
    forall x | x in m1 ensures NextUsed(m1, x) {
      if x in m {
        Neighbour(m, r, x);
        assert NextUsed(m, x);
        if x != b { NextUnique(m, b, x); }
      }
    }
  }

  lemma MergeCoalesced(m: Blocks, r: Regions, b: Addr)
    requires Tiled(m, r) && CoalescedBut(m, Nx(m, b)) && CanMerge(m, r, b)
    requires m[b].free ==> CoalescedBut(m, Nx(m, b)) && forall x :: x in m && Nx(m, x) == b ==> !m[x].free
    requires !H(m, Nx(m, Nx(m, b))).free
    ensures Coalesced(Merge(m, b))
  {
    var m1, c := Merge(m, b), Nx(m, b);
    MergeSizes(m, r, b);
    Neighbour(m, r, c);
    forall x | x in m1 ensures NextUsed(m1, x) {
      assert NextUsed(m, x) || Nx(m, x) == c;
      if x != b { NextUnique(m, b, x); }
    }
  }

  // ---- the operations -------------------------------------------------------------------

  /** The blocks are well formed: tiled, coalesced and indexed. */
  ghost predicate Fine(h: Heap) { BlocksFine(h, {}) && Coalesced(h.blks) }

  lemma TrimFine(h: Heap, b: Addr, size: nat, skip: set<Addr>)
    requires BlocksFine(h, skip) && CanSplit(h.blks, h.regions, b, size) && skip <= {b}
    requires b in skip || !h.blks[b].free
    requires Coalesced(h.blks) && !H(h.blks, Nx(h.blks, b)).free
    ensures Fine(Trim(h, b, size))
    ensures Step(h, Trim(h, b, size), b, if Used(h.blks, b) then size else 0)
    ensures H(Trim(h, b, size).blks, b) == H(h.blks, b).(size := size, free := false)
    ensures Plain(Trim(h, b, size).blks, h.regions, b)
  {
    var h1, n := Cut(h, b, size), b + HEAD + size;
    CutFine(h, b, size, skip);
    CutStep(h, b, size);
    SplitCoalesced(h.blks, h.regions, b, size);
    assert skip - {b} + {n} == {} + {n};
    hide BlocksFine, CanSplit, Step, Cut, Coalesced;
    InsertFine(h1, n, b, {});
    StepTrans(h, h1, Insert(h1, n), b, if Used(h.blks, b) then size else 0, size);
    assert {} - {n} == {};
  }

  /** What taking a fitting free block does: the block is the caller's, large enough. */
  lemma TakeFine(h: Heap, b: Addr, size: nat)
    requires BlocksFine(h, {b}) && Coalesced(h.blks) && b in h.blks && h.blks[b].free
    requires size % ALIGN == 0 && MIN_SIZE <= size <= h.blks[b].size
    ensures var h1 := Take(h, b, size); Fine(h1) && Step(h, h1, b, 0)
    ensures var h1 := Take(h, b, size); Plain(h1.blks, h.regions, b) && !h1.blks[b].free && h1.blks[b].size >= size
  {
    Neighbour(h.blks, h.regions, b);
    assert NextUsed(h.blks, b);
    if Cuttable(h.blks, b, size) {
      TrimFine(h, b, size, {b});
    } else {
      MarkFreeFine(h, b, false, {b});
      assert {b} - {b} == {};
      SetFreeCoalesced(h.blks, h.regions, b);
    }
  }

  lemma SetFreeCoalesced(m: Blocks, r: Regions, b: Addr)
    requires Tiled(m, r) && Coalesced(m) && Plain(m, r, b)
    ensures Coalesced(SetFree(m, b, false))
  {
    var m1 := SetFree(m, b, false);
    Neighbour(m, r, b);
    SetFreeSizes(m, b, false);
    forall x | x in m1 ensures NextUsed(m1, x) { assert NextUsed(m, x) && Nx(m1, x) == Nx(m, x); }
  }

  // ---- joining the successor ----------------------------------------------------------

  /** Taking over a free successor leaves a used one behind, and the start of the buffer. */
  lemma JoinNextFine(h: Heap, b: Addr)
    requires Fine(h) && Plain(h.blks, h.regions, b) && !h.blks[b].free
    ensures Fine(JoinNext(h, b)) && Step(h, JoinNext(h, b), b, h.blks[b].size)
    ensures var m1 := JoinNext(h, b).blks; Plain(m1, h.regions, b) && !H(m1, Nx(m1, b)).free
    ensures H(JoinNext(h, b).blks, b) == Joined(h.blks, b)
  {
    var m, c := h.blks, Nx(h.blks, b);
    Neighbour(m, h.regions, b);
    if H(m, c).free {
      Neighbour(m, h.regions, c);
      assert NextUsed(m, c);
      var h1 := Delete(h, c);
      DeleteFine(h, c, b, {});
      assert {} + {c} == {c} && {c} - {c} == {};
      JoinFine(h1, b, {c});
      JoinStep(h1, b);
      StepTrans(h, h1, Join(h1, b), b, m[b].size, m[b].size);
      MergeCoalesced(m, h.regions, b);
      MergeSizes(m, h.regions, b);
      JoinedNext(m, h.regions, b);
      hide Fine, BlocksFine, Step, Join, Delete, CanMerge, Coalesced;
    } else {
      StepRefl(h, b, m[b].size);
    }
  }

  /** Header of b after it took over a free successor. */
  function Joined(m: Blocks, b: Addr): Hdr {
    var k, c := H(m, b), H(m, Nx(m, b));
    if c.free then k.(size := k.size + HEAD + c.size) else k
  }

  lemma JoinedNext(m: Blocks, r: Regions, b: Addr)
    requires Tiled(m, r) && CanMerge(m, r, b) && !H(m, Nx(m, Nx(m, b))).free
    ensures var m1 := Merge(m, b); !H(m1, Nx(m1, b)).free
  {
    MergeSizes(m, r, b);
  }

  lemma StepRefl(h: Heap, b: Addr, n: nat)
    ensures Step(h, h, b, n)
  {
  }

  // ---- free ---------------------------------------------------------------------------

  lemma SetFreeGap(m: Blocks, r: Regions, b: Addr)
    requires Tiled(m, r) && Coalesced(m) && Plain(m, r, b) && !H(m, Nx(m, b)).free
    ensures CoalescedBut(SetFree(m, b, true), b)
    ensures var m1 := SetFree(m, b, true); !H(m1, Nx(m1, b)).free
  {
    var m1 := SetFree(m, b, true);
    Neighbour(m, r, b);
    SetFreeSizes(m, b, true);
    forall x | x in m1 ensures Nx(m1, x) == b || NextUsed(m1, x) { assert NextUsed(m, x) && Nx(m1, x) == Nx(m, x); }
  }

  lemma NoGap(m: Blocks, r: Regions, b: Addr)
    requires Tiled(m, r) && Plain(m, r, b) && CoalescedBut(m, b) && !m[b].prevFree
    ensures Coalesced(m)
  {
    forall x | x in m ensures NextUsed(m, x) {
      Neighbour(m, r, x);
      assert Nx(m, x) == b || NextUsed(m, x);
    }
  }

  /** Merging an unlisted free block with its free predecessor. */
  lemma JoinPrevFine(h: Heap, b: Addr)
    requires BlocksFine(h, {b}) && Plain(h.blks, h.regions, b) && h.blks[b].free
    requires CoalescedBut(h.blks, b) && !H(h.blks, Nx(h.blks, b)).free
    ensures var (h1, f) := JoinPrev(h, b); BlocksFine(h1, {f}) && Coalesced(h1.blks) && Step(h, h1, b, 0) && f in h1.blks && h1.blks[f].free
  {
    var m, r := h.blks, h.regions;
    if m[b].prevFree {
      var p := Before(m, r, b);
      var h1 := Delete(h, p);
      DeleteFine(h, p, b, {b});
      JoinFine(h1, p, {b} + {p});
      assert {b} + {p} - {b} == {p};
      JoinFreeStep(h1, p, b);
      StepTrans(h, h1, Join(h1, p), b, 0, 0);
      forall x | x in m && Nx(m, x) == p ensures !m[x].free { PrevUsed(m, b, p, x); }
      MergeCoalesced(m, r, p);
    } else {
      StepRefl(h, b, 0);
      NoGap(m, r, b);
    }
  }

  lemma PrevUsed(m: Blocks, b: Addr, p: Addr, x: Addr)
    requires CoalescedBut(m, b) && x in m && p in m && m[p].free && Nx(m, x) == p && p != b
    ensures !m[x].free
  {
    assert Nx(m, x) == b || NextUsed(m, x);
  }

  /** Freeing keeps the heap well formed and touches no other used block. */
  lemma FreeBlkFine(h: Heap, b: Addr)
    requires Fine(h) && Plain(h.blks, h.regions, b) && !h.blks[b].free
    ensures Fine(FreeBlk(h, b)) && Step(h, FreeBlk(h, b), b, 0)
    ensures !Used(FreeBlk(h, b).blks, b)
  {
    var h1 := JoinNext(h, b);
    var h2 := MarkFree(h1, b, true);
    var (h3, f) := JoinPrev(h2, b);
    JoinNextFine(h, b);
    MarkFreeFine(h1, b, true, {});
    assert {} + {b} == {b};
    StepTrans(h, h1, h2, b, h.blks[b].size, Keep(h1.blks, b));
    SetFreeGap(h1.blks, h.regions, b);
    JoinPrevFine(h2, b);
    StepLess(h, h2, b, 0);
    StepTrans(h, h2, h3, b, 0, 0);
    assert {} + {f} == {f} && {} - {f} == {};
    JoinPrevGone(h2, b);
    hide BlocksFine, Step, JoinNext, MarkFree, JoinPrev, Insert, Coalesced, CoalescedBut;
    InsertFine(h3, f, b, {});
    StepLess(h3, Insert(h3, f), b, 0);
    StepTrans(h, h3, Insert(h3, f), b, 0, 0);
  }

  lemma StepLess(h: Heap, h1: Heap, b: Addr, n: nat)
    requires exists k :: k >= n && Step(h, h1, b, k)
    ensures Step(h, h1, b, n)
  {
  }

  lemma JoinPrevGone(h: Heap, b: Addr)
    requires b in h.blks && h.blks[b].free
    ensures !Used(JoinPrev(h, b).0.blks, b)
  {
  }
}
