/** The free lists and their bitmap as an index of the free blocks, and what each
    primitive step of the allocator leaves alone. */
module HeapIndex {
  import opened Lists
  import opened HeapLevels
  import opened HeapTiling
  import opened HeapState
  import opened DoubleLinks

  // ---- the index -------------------------------------------------------------------

  /** A free block of level l. */
  predicate FreeAt(m: Blocks, l: int, x: Addr) { x in m && m[x].free && Level(m[x].size) == l }

  /** List l holds, once each, the free blocks of its level other than those in
      skip, and its bit says whether there are any. */
  ghost predicate LevelOk(h: Heap, l: int, skip: set<Addr>) {
    && (l < 0 ==> List(h, l) == [])
    && (l >= 0 ==> NoDup(List(h, l)) && ListedAre(h, l, skip))
    && (l in h.bits <==> List(h, l) != [])
  }

  ghost predicate ListedAre(h: Heap, l: int, skip: set<Addr>) {
    forall x :: x in List(h, l) <==> (FreeAt(h.blks, l, x) && x !in skip)
  }

  ghost predicate IndexOk(h: Heap, skip: set<Addr>) {
    forall l {:trigger LevelOk(h, l, skip)} :: LevelOk(h, l, skip)
  }

  lemma InsertIndex(h: Heap, b: Addr, skip: set<Addr>)
    requires IndexOk(h, skip + {b}) && b in h.blks && h.blks[b].free
    ensures IndexOk(Insert(h, b), skip - {b})
  {
    var h1, k := Insert(h, b), LevelOf(h, b);
    forall l ensures LevelOk(h1, l, skip - {b}) {
      assert LevelOk(h, l, skip + {b});
      assert l != k ==> List(h1, l) == List(h, l);
    }
  }

  lemma DeleteIndex(h: Heap, b: Addr, skip: set<Addr>)
    requires IndexOk(h, skip) && b in h.blks && h.blks[b].free
    ensures IndexOk(Delete(h, b), skip + {b})
  {
    var h1, k := Delete(h, b), LevelOf(h, b);
    forall l ensures LevelOk(h1, l, skip + {b}) {
      assert LevelOk(h, l, skip);
      if l == k && l >= 0 { WithoutIs(List(h, l), b); }
      assert l != k ==> List(h1, l) == List(h, l);
    }
  }

  /** Headers may change freely for blocks the lists do not mention. */
  lemma ReshapeIndex(h: Heap, h1: Heap, skip: set<Addr>, skip1: set<Addr>)
    requires IndexOk(h, skip) && h1.lists == h.lists && h1.bits == h.bits
    requires forall l, x {:trigger FreeAt(h1.blks, l, x)} :: FreeAt(h1.blks, l, x) && x !in skip1 <==> FreeAt(h.blks, l, x) && x !in skip
    ensures IndexOk(h1, skip1)
  {
    forall l ensures LevelOk(h1, l, skip1) {
      assert LevelOk(h, l, skip);
      assert List(h1, l) == List(h, l);
    }
  }

  // ---- what a step leaves alone --------------------------------------------------------

  /** A block that is not free: handed out, or part of a region's frame. */
  predicate Used(m: Blocks, x: Addr) { x in m && !m[x].free }

  /** Used blocks other than b stay used and keep their size, and no others appear. */
  ghost predicate Others(m: Blocks, m1: Blocks, b: Addr) {
    forall x {:trigger Used(m, x)} {:trigger Used(m1, x)} :: x != b ==>
      Used(m1, x) == Used(m, x) && (Used(m, x) ==> H(m1, x).size == H(m, x).size)
  }

  /** The first n bytes of b's buffer are the same. */
  ghost predicate Quiet(mem: Mem, mem1: Mem, b: Addr, n: nat) {
    forall x {:trigger Byte(mem1, x)} :: b + HEAD <= x < b + HEAD + n ==> Byte(mem1, x) == Byte(mem, x)
  }

  ghost predicate AllQuiet(h: Heap, h1: Heap, b: Addr) {
    forall y {:trigger Used(h.blks, y)} :: Used(h.blks, y) && y != b ==> Quiet(h.mem, h1.mem, y, H(h.blks, y).size)
  }

  /** A step that works on block b: regions, pool, other used blocks and their bytes stay,
      and so do the first n bytes of b's own buffer. */
  ghost predicate Step(h: Heap, h1: Heap, b: Addr, n: nat) {
    && h1.regions == h.regions && h1.pool == h.pool
    && Others(h.blks, h1.blks, b) && AllQuiet(h, h1, b) && Quiet(h.mem, h1.mem, b, n)
  }

  lemma StepTrans(h: Heap, h1: Heap, h2: Heap, b: Addr, n1: nat, n2: nat)
    requires Step(h, h1, b, n1) && Step(h1, h2, b, n2)
    ensures Step(h, h2, b, if n1 < n2 then n1 else n2)
  {
    forall y: Addr | Used(h.blks, y) && y != b ensures Quiet(h.mem, h2.mem, y, H(h.blks, y).size) {
      assert Used(h1.blks, y);
      assert Quiet(h.mem, h1.mem, y, H(h.blks, y).size) && Quiet(h1.mem, h2.mem, y, H(h.blks, y).size);
    }
  }

  lemma ClobberQuiet(mem: Mem, cells: set<Addr>, b: Addr, n: nat)
    requires forall x :: x in cells ==> !(b + HEAD <= x < b + HEAD + n)
    ensures Quiet(mem, Clobber(mem, cells), b, n)
  {
  }

  /** Cells that meet no used buffer but b's, and not the first n bytes of that. */
  ghost predicate Clear(m: Blocks, cells: set<Addr>, b: Addr, n: nat) {
    forall x, y {:trigger x in cells, Used(m, y)} :: x in cells && Used(m, y) ==> Misses(m, x, y, b, n)
  }

  predicate Misses(m: Blocks, x: Addr, y: Addr, b: Addr, n: nat) {
    !(y + HEAD <= x < y + HEAD + (if y == b then n else H(m, y).size))
  }

  lemma WriteStep(h: Heap, h1: Heap, cells: set<Addr>, b: Addr, n: nat)
    requires h1.regions == h.regions && h1.pool == h.pool && h1.mem == Clobber(h.mem, cells)
    requires Others(h.blks, h1.blks, b) && Clear(h.blks, cells, b, n)
    requires Used(h.blks, b) || n == 0
    ensures Step(h, h1, b, n)
  {
    forall y: Addr | Used(h.blks, y) ensures Quiet(h.mem, h1.mem, y, if y == b then n else H(h.blks, y).size) {
      forall x | x in cells ensures !(y + HEAD <= x < y + HEAD + (if y == b then n else H(h.blks, y).size)) {
        assert Misses(h.blks, x, y, b, n);
      }
      ClobberQuiet(h.mem, cells, y, if y == b then n else H(h.blks, y).size);
    }
  }

  /** Header words lie in no buffer. */
  lemma HdrClear(m: Blocks, x: Addr, b: Addr, n: nat)
    requires AllApart(m) && x in m && n <= H(m, b).size
    ensures Clear(m, HdrCells(x), b, n)
  {
    forall c, y | c in HdrCells(x) && Used(m, y) ensures Misses(m, c, y, b, n) {
      assert Apart(m, x, y) && Apart(m, y, x);
    }
  }

  /** Free-list pointers lie in free buffers. */
  lemma PtrClear(m: Blocks, r: Regions, x: Addr, b: Addr, n: nat)
    requires BlocksOk(m, r) && AllApart(m) && x in m && m[x].free && n <= H(m, b).size
    ensures Clear(m, PtrCells(x), b, n)
  {
    Neighbour(m, r, x);
    forall c, y | c in PtrCells(x) && Used(m, y) ensures Misses(m, c, y, b, n) {
      assert Apart(m, x, y) && Apart(m, y, x);
    }
  }

  lemma ClearUnion(m: Blocks, c1: set<Addr>, c2: set<Addr>, b: Addr, n: nat)
    requires Clear(m, c1, b, n) && Clear(m, c2, b, n)
    ensures Clear(m, c1 + c2, b, n)
  {
  }

  // ---- the primitive steps -------------------------------------------------------------

  /** How much of b's buffer a step elsewhere must leave alone. */
  function Keep(m: Blocks, b: Addr): nat { if Used(m, b) then H(m, b).size else 0 }

  lemma InsertStep(h: Heap, x: Addr, b: Addr, skip: set<Addr>)
    requires BlocksOk(h.blks, h.regions) && AllApart(h.blks) && IndexOk(h, skip)
    requires x in h.blks && h.blks[x].free
    ensures Step(h, Insert(h, x), b, Keep(h.blks, b)) && Insert(h, x).blks == h.blks
  {
    var l, q := LevelOf(h, x), List(h, LevelOf(h, x));
    var n := Keep(h.blks, b);
    var cells := if l < 0 then {} else PtrCells(x) + (if q == [] then {} else PtrCells(q[0]));
    PtrClear(h.blks, h.regions, x, b, n);
    if l >= 0 && q != [] {
      assert LevelOk(h, l, skip);
      assert q[0] in List(h, l);
      PtrClear(h.blks, h.regions, q[0], b, n);
    }
    hide BlocksOk, AllApart, IndexOk, PtrCells;
    assert Clear(h.blks, cells, b, n);
    assert l < 0 ==> Clobber(h.mem, cells) == h.mem;
    WriteStep(h, Insert(h, x), cells, b, n);
  }

  lemma LinkClear(h: Heap, q: seq<Addr>, x: Addr, b: Addr, n: nat)
    requires BlocksOk(h.blks, h.regions) && AllApart(h.blks) && n <= H(h.blks, b).size
    requires forall y :: y in q ==> y in h.blks && h.blks[y].free
    requires x in h.blks && h.blks[x].free
    ensures Clear(h.blks, LinkCells(q, x), b, n)
  {
    forall c, y | c in LinkCells(q, x) && Used(h.blks, y) ensures Misses(h.blks, c, y, b, n) {
      var z :| z in Linked(q, x) + {x} && c in PtrCells(z);
      PtrClear(h.blks, h.regions, z, b, n);
    }
  }

  lemma DeleteStep(h: Heap, x: Addr, b: Addr, skip: set<Addr>)
    requires BlocksOk(h.blks, h.regions) && AllApart(h.blks) && IndexOk(h, skip)
    requires x in h.blks && h.blks[x].free
    ensures Step(h, Delete(h, x), b, Keep(h.blks, b)) && Delete(h, x).blks == h.blks
  {
    var l, q := LevelOf(h, x), List(h, LevelOf(h, x));
    var n := Keep(h.blks, b);
    var cells := if l < 0 then {} else LinkCells(q, x);
    if l >= 0 {
      assert LevelOk(h, l, skip);
      LinkClear(h, q, x, b, n);
    }
    hide BlocksOk, AllApart, IndexOk, LinkCells;
    assert l < 0 ==> Clobber(h.mem, cells) == h.mem;
    WriteStep(h, Delete(h, x), cells, b, n);
  }

  lemma MarkFreeStep(h: Heap, b: Addr, f: bool)
    requires BlocksOk(h.blks, h.regions) && AllApart(h.blks) && Plain(h.blks, h.regions, b)
    ensures Step(h, MarkFree(h, b, f), b, Keep(h.blks, b))
  {
    var n, c := Keep(h.blks, b), Nx(h.blks, b);
    Neighbour(h.blks, h.regions, b);
    HdrClear(h.blks, b, b, n);
    HdrClear(h.blks, c, b, n);
    ClearUnion(h.blks, HdrCells(b), HdrCells(c), b, n);
    hide BlocksOk, AllApart, HdrCells;
    WriteStep(h, MarkFree(h, b, f), HdrCells(b) + HdrCells(c), b, n);
  }

  /** Joining b with a free successor. */
  lemma JoinStep(h: Heap, b: Addr)
    requires BlocksOk(h.blks, h.regions) && AllApart(h.blks) && CanMerge(h.blks, h.regions, b)
    requires H(h.blks, Nx(h.blks, b)).free
    ensures Step(h, Join(h, b), b, Keep(h.blks, b))
  {
    var m, r := h.blks, h.regions;
    var n, c := Keep(m, b), Nx(m, b);
    var d := Nx(m, c);
    Neighbour(m, r, b);
    Neighbour(m, r, c);
    MergeSizes(m, r, b);
    HdrClear(m, b, b, n);
    HdrClear(m, d, b, n);
    ClearUnion(m, HdrCells(b), HdrCells(d), b, n);
    hide BlocksOk, AllApart, HdrCells, SameFrame;
    WriteStep(h, Join(h, b), HdrCells(b) + HdrCells(d), b, n);
  }

  /** Joining a free block with the free block behind it. */
  lemma JoinFreeStep(h: Heap, p: Addr, b: Addr)
    requires BlocksOk(h.blks, h.regions) && AllApart(h.blks) && CanMerge(h.blks, h.regions, p)
    requires H(h.blks, p).free && H(h.blks, Nx(h.blks, p)).free && b == Nx(h.blks, p)
    ensures Step(h, Join(h, p), b, 0)
  {
    var m, r := h.blks, h.regions;
    var d := Nx(m, b);
    Neighbour(m, r, p);
    Neighbour(m, r, b);
    MergeSizes(m, r, p);
    HdrClear(m, p, b, 0);
    HdrClear(m, d, b, 0);
    ClearUnion(m, HdrCells(p), HdrCells(d), b, 0);
    hide BlocksOk, AllApart, HdrCells, SameFrame;
    WriteStep(h, Join(h, p), HdrCells(p) + HdrCells(d), b, 0);
  }

  lemma CutStep(h: Heap, b: Addr, size: nat)
    requires Tiled(h.blks, h.regions) && CanSplit(h.blks, h.regions, b, size)
    ensures Step(h, Cut(h, b, size), b, if Used(h.blks, b) then size else 0)
  {
    var m, r := h.blks, h.regions;
    var n, c, k := b + HEAD + size, Nx(h.blks, b), if Used(h.blks, b) then size else 0;
    SplitPlace(m, r, b, size);
    CutOthers(m, r, b, size);
    assert AllApart(m);
    hide Tiled, AllApart, HdrCells, Others, Clear, Split, Misses;
    HdrClear(m, b, b, k);
    HdrClear(m, c, b, k);
    NewHdrClear(m, b, size, k);
    ClearUnion(m, HdrCells(b), HdrCells(n), b, k);
    ClearUnion(m, HdrCells(b) + HdrCells(n), HdrCells(c), b, k);
    WriteStep(h, Cut(h, b, size), HdrCells(b) + HdrCells(n) + HdrCells(c), b, k);
  }

  lemma CutOthers(m: Blocks, r: Regions, b: Addr, size: nat)
    requires Tiled(m, r) && CanSplit(m, r, b, size)
    ensures Others(m, Split(m, b, size), b)
  {
    SplitPlace(m, r, b, size);
    hide Tiled;
  }

  lemma NewHdrClear(m: Blocks, b: Addr, size: nat, k: nat)
    requires AllApart(m) && b in m && H(m, b).size >= size + HEAD && k <= size
    ensures Clear(m, HdrCells(b + HEAD + size), b, k)
  {
    forall c, y | c in HdrCells(b + HEAD + size) && Used(m, y) ensures Misses(m, c, y, b, k) {
      assert Apart(m, b, y) && Apart(m, y, b);
    }
  }
}
