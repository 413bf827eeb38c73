/** Block headers as a tiling of the heap regions by boundary-tagged blocks, and
    the three ways the allocator reshapes it. */
module HeapTiling {
  import opened HeapLevels
  import opened DoubleLinks

  /** `k_mm_list_t`: buffer size, the FREE and PREVFREE bits, and the block before. */
  datatype Hdr = Hdr(size: nat, free: bool, prevFree: bool, prev: Addr)

  type Blocks = map<Addr, Hdr>
  /** First block of each region, mapped to the sentinel that ends it. */
  type Regions = map<Addr, Addr>

  const NO_HDR := Hdr(0, false, false, 0)

  function H(m: Blocks, b: Addr): Hdr { if b in m then m[b] else NO_HDR }

  /** MM_GET_NEXT_BLK. */
  function Nx(m: Blocks, b: Addr): Addr { b + HEAD + H(m, b).size }

  /** The sentinel that stops merging at the end of a region has no buffer. */
  predicate IsEnd(m: Blocks, b: Addr) { H(m, b).size == 0 }
  predicate IsStart(r: Regions, b: Addr) { b in r }

  /** A block handed out to the heap's users or available to them. */
  predicate Plain(m: Blocks, r: Regions, b: Addr) { b in m && !IsEnd(m, b) && !IsStart(r, b) }

  /** One block: aligned, followed by another one unless it is a sentinel, and
      its tags agree with its neighbour's. */
  ghost predicate BlockOk(m: Blocks, r: Regions, b: Addr) {
    var k, c := H(m, b), Nx(m, b);
    && b % ALIGN == 0 && k.size % ALIGN == 0
    && (Plain(m, r, b) ==> k.size >= MIN_SIZE)
    && (k.free ==> Plain(m, r, b))
    && (!IsEnd(m, b) ==> c in m && !IsStart(r, c) && H(m, c).prevFree == k.free && (!IsStart(r, b) ==> H(m, c).prev == b))
  }

  ghost predicate Apart(m: Blocks, b: Addr, c: Addr) { b < c ==> Nx(m, b) <= c }

  /** Where block b lies: in the region that starts at s. */
  ghost predicate Within(m: Blocks, r: Regions, b: Addr, s: Addr) {
    s in r && s <= b <= r[s] && (IsEnd(m, b) <==> b == r[s])
  }

  ghost predicate RegionOk(m: Blocks, r: Regions, s: Addr)
    requires s in r
  {
    s in m && r[s] in m && s < r[s] && IsEnd(m, r[s])
  }

  ghost predicate RegionsApart(r: Regions, s: Addr, t: Addr)
    requires s in r && t in r
  {
    s < t ==> r[s] + HEAD <= t
  }

  ghost predicate BlocksOk(m: Blocks, r: Regions) {
    forall b {:trigger BlockOk(m, r, b)} :: b in m ==> BlockOk(m, r, b)
  }

  ghost predicate AllApart(m: Blocks) {
    forall b, c {:trigger Apart(m, b, c)} :: b in m && c in m ==> Apart(m, b, c)
  }

  ghost predicate RegionsOk(m: Blocks, r: Regions) {
    && (forall s {:trigger RegionOk(m, r, s)} :: s in r ==> RegionOk(m, r, s))
    && (forall s, t {:trigger RegionsApart(r, s, t)} :: s in r && t in r ==> RegionsApart(r, s, t))
  }

  ghost predicate Housed(m: Blocks, r: Regions) {
    forall b {:trigger InSome(m, r, b)} :: b in m ==> InSome(m, r, b)
  }

  ghost predicate InSome(m: Blocks, r: Regions, b: Addr) {
    exists s {:trigger Within(m, r, b, s)} :: Within(m, r, b, s)
  }

  /** The boundary-tag invariant: the regions are tiled by aligned blocks whose
      tags agree with their neighbours. */
  ghost predicate Tiled(m: Blocks, r: Regions) {
    BlocksOk(m, r) && AllApart(m) && RegionsOk(m, r) && Housed(m, r)
  }

  /** No two free neighbours. */
  ghost predicate Coalesced(m: Blocks) {
    forall b {:trigger NextUsed(m, b)} :: b in m ==> NextUsed(m, b)
  }

  predicate NextUsed(m: Blocks, b: Addr) { H(m, b).free ==> !H(m, Nx(m, b)).free }

  // ---- the reshaping steps -----------------------------------------------------

  function SetFree(m: Blocks, b: Addr, f: bool): Blocks {
    var c := Nx(m, b);
    m[b := H(m, b).(free := f)][c := H(m, c).(prevFree := f)]
  }

  /** b takes over the block behind it. */
  function Merge(m: Blocks, b: Addr): Blocks {
    var c := Nx(m, b);
    var d := Nx(m, c);
    (m - {c})[b := H(m, b).(size := H(m, b).size + HEAD + H(m, c).size)][d := H(m, d).(prev := b, prevFree := H(m, b).free)]
  }

  /** b, in use, keeps size bytes; the rest becomes a free block. */
  function Split(m: Blocks, b: Addr, size: nat): Blocks {
    var c := Nx(m, b);
    var n := b + HEAD + size;
    var left := if H(m, b).size >= size + HEAD then H(m, b).size - size - HEAD else 0;
    m[b := H(m, b).(size := size, free := false)]
     [n := Hdr(left, true, false, b)]
     [c := H(m, c).(prev := n, prevFree := true)]
  }

  // ---- facts about one block ------------------------------------------------------

  lemma Neighbour(m: Blocks, r: Regions, b: Addr)
    requires BlocksOk(m, r) && b in m
    ensures BlockOk(m, r, b)
  {
  }

  /** Two different blocks have different successors. */
  lemma NextUnique(m: Blocks, b: Addr, c: Addr)
    requires AllApart(m) && b in m && c in m && b != c
    ensures Nx(m, b) != Nx(m, c) && Nx(m, b) != b && (Nx(m, b) == c ==> b < c)
  {
    assert Apart(m, b, c) && Apart(m, c, b);
  }

  /** Header changes that keep the regions' frames and the sentinels. */
  ghost predicate SameFrame(m: Blocks, m1: Blocks) {
    forall x {:trigger IsEnd(m1, x)} {:trigger IsEnd(m, x)} :: x in m && x in m1 ==> IsEnd(m1, x) == IsEnd(m, x)
  }

  predicate Anchors(m: Blocks, r: Regions) { forall s :: s in r ==> s in m && r[s] in m }

  lemma SameRegions(m: Blocks, m1: Blocks, r: Regions)
    requires RegionsOk(m, r) && Housed(m, r)
    requires SameFrame(m, m1)
    requires Anchors(m1, r)
    ensures RegionsOk(m1, r)
    ensures forall b {:trigger InSome(m1, r, b)} :: b in m1 && b in m ==> InSome(m1, r, b)
  {
    hide IsEnd;
    forall s | s in r ensures RegionOk(m1, r, s) {
      assert RegionOk(m, r, s);
      assert IsEnd(m1, r[s]) == IsEnd(m, r[s]);
    }
    forall b | b in m1 && b in m ensures InSome(m1, r, b) {
      assert InSome(m, r, b);
      var s :| Within(m, r, b, s);
      assert IsEnd(m1, b) == IsEnd(m, b);
      assert Within(m1, r, b, s);
    }
  }

  // ---- SetFree ----------------------------------------------------------------------

  lemma SetFreeBlocks(m: Blocks, r: Regions, b: Addr, f: bool)
    requires BlocksOk(m, r) && AllApart(m) && Plain(m, r, b)
    ensures BlocksOk(SetFree(m, b, f), r)
  {
    Neighbour(m, r, b);
    var m1 := SetFree(m, b, f);
    SetFreeSizes(m, b, f);
    forall x | x in m1 ensures BlockOk(m1, r, x) {
      assert BlockOk(m, r, x);
      if x != b { NextUnique(m, b, x); }
    }
  }

  lemma SetFreeSizes(m: Blocks, b: Addr, f: bool)
    requires b in m && Nx(m, b) in m
    ensures SetFree(m, b, f).Keys == m.Keys
    ensures forall x {:trigger H(SetFree(m, b, f), x)} :: H(SetFree(m, b, f), x).size == H(m, x).size
  {
  }

  lemma SetFreeTiled(m: Blocks, r: Regions, b: Addr, f: bool)
    requires Tiled(m, r) && Plain(m, r, b)
    ensures Tiled(SetFree(m, b, f), r)
  {
    var m1 := SetFree(m, b, f);
    SetFreeBlocks(m, r, b, f);
    Neighbour(m, r, b);
    SetFreeSizes(m, b, f);
    hide SetFree, BlocksOk, BlockOk, RegionsOk, Housed, Plain, RegionOk;
    forall x, y | x in m1 && y in m1 ensures Apart(m1, x, y) { assert Apart(m, x, y); }
    Anchored(m, m1, r);
    SameRegions(m, m1, r);
    AllHoused(m, m1, r);
  }

  /** No start or sentinel of a region goes away. */
  lemma Anchored(m: Blocks, m1: Blocks, r: Regions)
    requires RegionsOk(m, r)
    requires forall x :: x in m && (IsEnd(m, x) || IsStart(r, x)) ==> x in m1
    ensures Anchors(m1, r)
  {
    forall s | s in r ensures s in m1 && r[s] in m1 { assert RegionOk(m, r, s); }
  }

  lemma AllHoused(m: Blocks, m1: Blocks, r: Regions)
    requires forall b {:trigger InSome(m1, r, b)} :: b in m1 && b in m ==> InSome(m1, r, b)
    requires forall b :: b in m1 && b !in m ==> InSome(m1, r, b)
    ensures Housed(m1, r)
  {
  }

  // ---- Merge ------------------------------------------------------------------------

  predicate CanMerge(m: Blocks, r: Regions, b: Addr) { Plain(m, r, b) && Plain(m, r, Nx(m, b)) }

  lemma MergeBlocks(m: Blocks, r: Regions, b: Addr)
    requires BlocksOk(m, r) && AllApart(m) && CanMerge(m, r, b)
    ensures BlocksOk(Merge(m, b), r)
  {
    var m1, c := Merge(m, b), Nx(m, b);
    var d := Nx(m, c);
    MergeSizes(m, r, b);
    Neighbour(m, r, b);
    Neighbour(m, r, c);
    Neighbour(m, r, d);
    forall x | x in m1 ensures BlockOk(m1, r, x) {
      MergeBlock(m, r, b, x);
    }
  }

  lemma MergeBlock(m: Blocks, r: Regions, b: Addr, x: Addr)
    requires BlocksOk(m, r) && AllApart(m) && CanMerge(m, r, b)
    requires x in Merge(m, b)
    ensures BlockOk(Merge(m, b), r, x)
  {
    var c := Nx(m, b);
    MergeSizes(m, r, b);
    Neighbour(m, r, b);
    Neighbour(m, r, c);
    Neighbour(m, r, Nx(m, c));
    Neighbour(m, r, x);
    hide BlocksOk;
    if x != b {
      NextUnique(m, b, x);
      NextUnique(m, c, x);
    }
  }

  lemma MergeSizes(m: Blocks, r: Regions, b: Addr)
    requires BlocksOk(m, r) && AllApart(m) && CanMerge(m, r, b)
    ensures var m1 := Merge(m, b);
      && m1.Keys == m.Keys - {Nx(m, b)} && Nx(m1, b) == Nx(m, Nx(m, b))
      && b < Nx(m, b) < Nx(m1, b)
      && (forall x {:trigger Nx(m1, x)} :: x in m1 && x != b ==> Nx(m1, x) == Nx(m, x))
      && SameFrame(m, m1)
  {
    var c := Nx(m, b);
    Neighbour(m, r, b);
    Neighbour(m, r, c);
    NextUnique(m, b, c);
  }

  lemma MergeTiled(m: Blocks, r: Regions, b: Addr)
    requires Tiled(m, r) && CanMerge(m, r, b)
    ensures Tiled(Merge(m, b), r)
  {
    MergeBlocks(m, r, b);
    MergeSizes(m, r, b);
    var m1, c := Merge(m, b), Nx(m, b);
    hide Merge, BlocksOk, BlockOk, RegionsOk, Housed, RegionOk;
    forall x, y | x in m1 && y in m1 ensures Apart(m1, x, y) { assert Apart(m, x, y) && Apart(m, c, y); }
    Anchored(m, m1, r);
    SameRegions(m, m1, r);
    AllHoused(m, m1, r);
  }

  // ---- Split ------------------------------------------------------------------------

  predicate CanSplit(m: Blocks, r: Regions, b: Addr, size: nat) {
    Plain(m, r, b) && size % ALIGN == 0 && size >= MIN_SIZE && H(m, b).size >= size + HEAD + MIN_SIZE
  }

  lemma SplitPlace(m: Blocks, r: Regions, b: Addr, size: nat)
    requires Tiled(m, r) && CanSplit(m, r, b, size)
    ensures var n, c := b + HEAD + size, Nx(m, b); n !in m && n !in r && b < n < c && c in m
  {
    hide Housed;
    var n := b + HEAD + size;
    Neighbour(m, r, b);
    hide BlocksOk;
    Anchored(m, m, r);
    assert n in m ==> Apart(m, b, n);
  }

  lemma SplitSizes(m: Blocks, r: Regions, b: Addr, size: nat)
    requires Tiled(m, r) && CanSplit(m, r, b, size)
    ensures var m1, n := Split(m, b, size), b + HEAD + size;
      && m1.Keys == m.Keys + {n} && Nx(m1, b) == n && Nx(m1, n) == Nx(m, b)
      && (forall x {:trigger Nx(m1, x)} :: x in m && x != b ==> Nx(m1, x) == Nx(m, x))
      && SameFrame(m, m1) && !IsEnd(m1, n)
  {
    SplitPlace(m, r, b, size);
    hide Tiled;
  }

  lemma SplitBlock(m: Blocks, r: Regions, b: Addr, size: nat, x: Addr)
    requires Tiled(m, r) && CanSplit(m, r, b, size)
    requires x in Split(m, b, size)
    ensures BlockOk(Split(m, b, size), r, x)
  {
    SplitPlace(m, r, b, size);
    SplitSizes(m, r, b, size);
    Neighbour(m, r, b);
    Neighbour(m, r, Nx(m, b));
    if x in m {
      Neighbour(m, r, x);
      if x != b { NextUnique(m, b, x); }
    }
    hide Tiled, SameFrame, AllApart, BlocksOk;
  }

  lemma SplitApart(m: Blocks, r: Regions, b: Addr, size: nat, x: Addr, y: Addr)
    requires Tiled(m, r) && CanSplit(m, r, b, size)
    requires x in Split(m, b, size) && y in Split(m, b, size)
    ensures Apart(Split(m, b, size), x, y)
  {
    SplitPlace(m, r, b, size);
    SplitSizes(m, r, b, size);
    hide BlocksOk, RegionsOk, Housed, SameFrame;
    assert x in m ==> Apart(m, x, b) && Apart(m, b, x);
    assert y in m ==> Apart(m, b, y);
    assert x in m && y in m ==> Apart(m, x, y);
  }

  lemma SplitTiled(m: Blocks, r: Regions, b: Addr, size: nat)
    requires Tiled(m, r) && CanSplit(m, r, b, size)
    ensures Tiled(Split(m, b, size), r)
  {
    hide Split, BlockOk, RegionsOk, Housed, RegionOk, SameFrame, CanSplit, Apart;
    SplitPlace(m, r, b, size);
    SplitSizes(m, r, b, size);
    var m1, n := Split(m, b, size), b + HEAD + size;
    forall x | x in m1 ensures BlockOk(m1, r, x) { SplitBlock(m, r, b, size, x); }
    forall x, y | x in m1 && y in m1 ensures Apart(m1, x, y) { SplitApart(m, r, b, size, x, y); }
    Anchored(m, m1, r);
    SameRegions(m, m1, r);
    SplitHoused(m, m1, r, b, n);
    AllHoused(m, m1, r);
  }

  lemma SplitHoused(m: Blocks, m1: Blocks, r: Regions, b: Addr, n: Addr)
    requires Tiled(m, r) && b in m && !IsEnd(m, b) && b < n < Nx(m, b) && !IsEnd(m1, n)
    ensures InSome(m1, r, n)
  {
    assert InSome(m, r, b);
    var s :| Within(m, r, b, s);
    InsideRegion(m, r, b, s);
    assert Within(m1, r, n, s);
  }

  /** A block that is not the sentinel of its region ends at or before the sentinel. */
  lemma InsideRegion(m: Blocks, r: Regions, b: Addr, s: Addr)
    requires Tiled(m, r) && b in m && !IsEnd(m, b) && Within(m, r, b, s)
    ensures Nx(m, b) <= r[s]
  {
    assert RegionOk(m, r, s);
    assert Apart(m, b, r[s]);
  }

  // ---- the tiling ---------------------------------------------------------------------

  /** Byte x belongs to block b. */
  predicate Holds(m: Blocks, b: Addr, x: Addr) { b in m && b <= x < Nx(m, b) }

  /** Every byte of a region, its sentinel's header included, lies in a block. */
  lemma {:induction false} Covered(m: Blocks, r: Regions, s: Addr, b: Addr, x: Addr) returns (c: Addr)
    requires Tiled(m, r) && b in m && Within(m, r, b, s) && b <= x < r[s] + HEAD
    ensures Holds(m, c, x) && Within(m, r, c, s)
    decreases x - b
  {
    if x < Nx(m, b) {
      c := b;
    } else {
      assert BlockOk(m, r, b);
      InsideRegion(m, r, b, s);
      var n := Nx(m, b);
      assert InSome(m, r, n);
      var t :| Within(m, r, n, t);
      if t != s { OtherRegion(m, r, s, t, n); }
      c := Covered(m, r, s, n, x);
    }
  }

  lemma OtherRegion(m: Blocks, r: Regions, s: Addr, t: Addr, n: Addr)
    requires Tiled(m, r) && s in r && t in r && s != t && t <= n <= r[t]
    ensures !(s < n <= r[s])
  {
    assert RegionsApart(r, s, t) && RegionsApart(r, t, s);
    assert RegionOk(m, r, s) && RegionOk(m, r, t);
  }

  /** Blocks tile the regions: a byte of a region lies in exactly one block, and
      that block lies wholly inside the region. */
  lemma TiledExactly(m: Blocks, r: Regions, s: Addr, x: Addr)
    requires Tiled(m, r) && s in r && s <= x < r[s] + HEAD
    ensures exists b :: Holds(m, b, x) && s <= b && Nx(m, b) <= r[s] + HEAD
    ensures forall b, c :: Holds(m, b, x) && Holds(m, c, x) ==> b == c
  {
    assert RegionOk(m, r, s);
    assert InSome(m, r, s);
    var t :| Within(m, r, s, t);
    if t != s { OtherRegion(m, r, t, s, s); }
    var b := Covered(m, r, s, s, x);
    if !IsEnd(m, b) { InsideRegion(m, r, b, s); }
    forall b, c | Holds(m, b, x) && Holds(m, c, x) ensures b == c {
      assert Apart(m, b, c) && Apart(m, c, b);
    }
  }
}
