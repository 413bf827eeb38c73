/** The heap as a value: block headers, the free lists with their bitmap, the pool
    of fixed blocks and the bytes of memory, and the allocator's operations on it. */
module HeapState {
  import opened Options
  import opened HeapLevels
  import opened HeapTiling
  import opened DoubleLinks

  const POOL_BLK: nat := 32
  const POOL_SIZE: nat := 8192

  /** The fixed-block pool: the heap buffer it lies in (`fix_pool`), its first block,
      and the blocks to hand out, next one first. */
  datatype Pool = NoPool | Pool(fix: Addr, start: Addr, avail: seq<Addr>)

  type Mem = map<Addr, int>

  /** Free lists and bitmap are per level; list heads come first. */
  datatype Heap = Heap(
    blks: Blocks,
    regions: Regions,
    lists: map<int, seq<Addr>>,
    bits: set<int>,
    pool: Pool,
    mem: Mem)

  // ---- memory ------------------------------------------------------------------

  /** What the allocator's own words look like to a user of the heap. */
  const META: int := -1

  function Byte(mem: Mem, x: Addr): int { if x in mem then mem[x] else 0 }

  predicate InSpan(a: Addr, n: nat, x: Addr) { a <= x < a + n }

  function Cells(a: Addr, n: nat): set<Addr> { set x: nat | a <= x < a + n && InSpan(a, n, x) }

  function Clobber(mem: Mem, cells: set<Addr>): Mem { mem + map x | x in cells :: META }

  /** memcpy between buffers that do not overlap. */
  function Copy(mem: Mem, dst: Addr, src: Addr, n: nat): Mem {
    mem + map x | x in Cells(dst, n) :: Byte(mem, src + x - dst)
  }

  function HdrCells(b: Addr): set<Addr> { Cells(b, HEAD) }
  function PtrCells(b: Addr): set<Addr> { Cells(b + HEAD, PTRS) }

  // ---- free lists --------------------------------------------------------------

  function List(h: Heap, l: int): seq<Addr> { if l in h.lists then h.lists[l] else [] }

  function LevelOf(h: Heap, b: Addr): int { Level(H(h.blks, b).size) }

  /** The free-list pointers that unlinking b writes: its own and its neighbours'. */
  function Linked(q: seq<Addr>, b: Addr): set<Addr> {
    set x | x in q && (exists i {:trigger q[i]} :: 0 <= i < |q| && q[i] == b && ((i > 0 && x == q[i - 1]) || (i + 1 < |q| && x == q[i + 1])))
  }

  function LinkCells(q: seq<Addr>, b: Addr): set<Addr> {
    set y, x | y in Linked(q, b) + {b} && x in PtrCells(y) :: x
  }

  /** `k_mm_freelist_insert` */
  function Insert(h: Heap, b: Addr): Heap {
    var l := LevelOf(h, b);
    if l < 0 then h
    else
      var q := List(h, l);
      h.(lists := h.lists[l := [b] + q],
         bits := h.bits + {l},
         mem := Clobber(h.mem, PtrCells(b) + (if q == [] then {} else PtrCells(q[0]))))
  }

  /** `k_mm_freelist_delete` */
  function Delete(h: Heap, b: Addr): Heap {
    var l := LevelOf(h, b);
    if l < 0 then h
    else
      var q := List(h, l);
      var q1 := Without(q, b);
      h.(lists := h.lists[l := q1],
         bits := if q1 == [] then h.bits - {l} else h.bits,
         mem := Clobber(h.mem, LinkCells(q, b)))
  }

  /** Least level from l on whose bit is set; LEVELS if there is none. */
  function FirstBit(bits: set<int>, l: nat): nat
    decreases LEVELS - l
  {
    if l >= LEVELS then LEVELS else if l in bits then l else FirstBit(bits, l + 1)
  }

  /** `find_up_level` */
  function FindUp(h: Heap, level: nat): Option<Addr> {
    var l := FirstBit(h.bits, level + 1);
    if l < LEVELS && List(h, l) != [] then Some(List(h, l)[0]) else None
  }

  function FirstFit(m: Blocks, q: seq<Addr>, size: nat): Option<Addr> {
    if q == [] then None else if H(m, q[0]).size >= size then Some(q[0]) else FirstFit(m, q[1..], size)
  }

  /** Where `k_mm_alloc` looks, with RHINO_CONFIG_MM_QUICK on or off. */
  function Search(h: Heap, size: nat, quick: bool): Option<Addr>
    requires Level(size) >= 0
  {
    var l := Level(size);
    var up, same := FindUp(h, l), FirstFit(h.blks, List(h, l), size);
    if quick then if up.Some? then up else same
    else if same.Some? then same else up
  }

  // ---- reshaping, with the header words it writes ---------------------------------

  function MarkFree(h: Heap, b: Addr, f: bool): Heap {
    h.(blks := SetFree(h.blks, b, f), mem := Clobber(h.mem, HdrCells(b) + HdrCells(Nx(h.blks, b))))
  }

  function Join(h: Heap, b: Addr): Heap {
    h.(blks := Merge(h.blks, b), mem := Clobber(h.mem, HdrCells(b) + HdrCells(Nx(h.blks, Nx(h.blks, b)))))
  }

  function Cut(h: Heap, b: Addr, size: nat): Heap {
    h.(blks := Split(h.blks, b, size),
       mem := Clobber(h.mem, HdrCells(b) + HdrCells(b + HEAD + size) + HdrCells(Nx(h.blks, b))))
  }

  predicate Cuttable(m: Blocks, b: Addr, size: nat) { H(m, b).size >= size + HEAD + MIN_SIZE }

  /** Cut off what b does not need of its buffer. */
  function Trim(h: Heap, b: Addr, size: nat): Heap {
    Insert(Cut(h, b, size), b + HEAD + size)
  }

  // ---- the operations --------------------------------------------------------------

  /** An unlisted free block becomes the caller's. */
  function Take(h: Heap, b: Addr, size: nat): Heap {
    if Cuttable(h.blks, b, size) then Trim(h, b, size) else MarkFree(h, b, false)
  }

  function AllocBlk(h: Heap, size: nat, quick: bool): (Heap, Option<Addr>) {
    var n := Needed(size);
    if Level(n) < 0 then (h, None)
    else
      match Search(h, n, quick)
      case None => (h, None)
      case Some(b) => (Take(Delete(h, b), b, n), Some(b + HEAD))
  }

  /** `k_mm_alloc` */
  function Alloc(h: Heap, size: nat, quick: bool): (Heap, Option<Addr>) {
    if size == 0 then (h, None)
    else if PoolServes(h, size) then (h.(pool := h.pool.(avail := h.pool.avail[1..])), Some(h.pool.avail[0]))
    else AllocBlk(h, size, quick)
  }

  predicate PoolServes(h: Heap, size: nat) { h.pool.Pool? && size <= POOL_BLK && h.pool.avail != [] }

  /** `krhino_mblk_check` */
  predicate InPool(h: Heap, p: Addr) { h.pool.Pool? && h.pool.start <= p < h.pool.start + POOL_SIZE }

  /** Size of a pointer, the link at the start of an unused pool block. */
  const LINK: nat := 4

  function PoolFree(h: Heap, p: Addr): Heap
    requires h.pool.Pool?
  {
    h.(pool := h.pool.(avail := [p] + h.pool.avail), mem := Clobber(h.mem, Cells(p, LINK)))
  }

  /** Take over a free successor. */
  function JoinNext(h: Heap, b: Addr): Heap {
    if H(h.blks, Nx(h.blks, b)).free then Join(Delete(h, Nx(h.blks, b)), b) else h
  }

  /** Become part of a free predecessor; the block that stays comes with the heap. */
  function JoinPrev(h: Heap, b: Addr): (Heap, Addr) {
    var k := H(h.blks, b);
    if k.prevFree then (Join(Delete(h, k.prev), k.prev), k.prev) else (h, b)
  }

  function FreeBlk(h: Heap, b: Addr): Heap {
    var h1 := MarkFree(JoinNext(h, b), b, true);
    var (h2, f) := JoinPrev(h1, b);
    Insert(h2, f)
  }

  /** `k_mm_free`; a null pointer is ignored. */
  function Free(h: Heap, ptr: Option<Addr>): Heap {
    match ptr
    case None => h
    case Some(p) =>
      if InPool(h, p) then PoolFree(h, p)
      else if p >= HEAD then FreeBlk(h, p - HEAD) else h
  }

  /** New block, copy, old block back: the slow path of `k_mm_realloc`. */
  function Move(h: Heap, p: Addr, size: nat, keep: nat, quick: bool): (Heap, Option<Addr>) {
    var (h1, q) := Alloc(h, size, quick);
    if q.None? then (h1, None)
    else (Free(h1.(mem := Copy(h1.mem, q.value, p, keep)), Some(p)), q)
  }

  function ReallocBlk(h: Heap, b: Addr, size: nat, quick: bool): (Heap, Option<Addr>) {
    var n := Needed(size);
    var k, next := H(h.blks, b), H(h.blks, Nx(h.blks, b));
    if n <= k.size then
      var h1 := JoinNext(h, b);
      (if Cuttable(h1.blks, b, n) then Trim(h1, b, n) else h1, Some(b + HEAD))
    else if next.free && n <= k.size + HEAD + next.size then
      var h1 := JoinNext(h, b);
      (if Cuttable(h1.blks, b, n) then Trim(h1, b, n) else h1, Some(b + HEAD))
    else Move(h, b + HEAD, n, k.size, quick)
  }

  /** `k_mm_realloc` */
  function Realloc(h: Heap, ptr: Option<Addr>, size: nat, quick: bool): (Heap, Option<Addr>) {
    match ptr
    case None => Alloc(h, size, quick)
    case Some(p) =>
      if size == 0 then (Free(h, ptr), None)
      else if InPool(h, p) then
        if size <= POOL_BLK then (h, ptr) else Move(h, p, size, POOL_BLK, quick)
      else if p >= HEAD then ReallocBlk(h, p - HEAD, size, quick) else (h, None)
  }

  // ---- regions ------------------------------------------------------------------------

  /** Buffer size of the block that holds a region's bookkeeping. */
  const INFO: nat := 8

  /** `init_mm_region`: the bookkeeping block, the block to be freed, the sentinel. */
  function Region(a: Addr, len: nat): Blocks
    requires len >= INFO + 3 * HEAD
  {
    var mid, last := a + HEAD + INFO, a + len - HEAD;
    map[a := Hdr(INFO, false, false, 0),
        mid := Hdr(last - mid - HEAD, false, false, 0),
        last := Hdr(0, false, true, mid)]
  }

  /** The aligned memory `krhino_add_mm_region` works on, in size_t arithmetic. */
  function Start(addr: nat): nat { AlignUp(addr) }
  function Length(addr: nat, len: nat): nat {
    (len - (Start(addr) - addr)) % SIZE_SPAN / ALIGN * ALIGN
  }

  predicate TooSmall(addr: nat, len: nat) {
    Length(addr, len) == 0 || Length(addr, len) < INFO + HEAD * 3 + MIN_SIZE
  }

  /** The frame of a new region is written. What the memory held before is lost. */
  function Frame(h: Heap, a: Addr, n: nat): Heap
    requires n >= INFO + 3 * HEAD
  {
    h.(blks := h.blks + Region(a, n), regions := h.regions[a := a + n - HEAD], mem := Clobber(h.mem, Cells(a, n)))
  }

  /** A new region with its middle block given to the allocator. */
  function NewRegion(h: Heap, a: Addr, n: nat): Heap
    requires n >= INFO + 3 * HEAD
  {
    FreeBlk(Frame(h, a, n), a + HEAD + INFO)
  }

  /** `krhino_add_mm_region`: false for RHINO_MM_POOL_SIZE_ERR. */
  function AddRegion(h: Heap, addr: nat, len: nat): (Heap, bool) {
    if TooSmall(addr, len) then (h, false) else (NewRegion(h, Start(addr), Length(addr, len)), true)
  }

  const MIN_FREE_MEMORY: nat := 1024

  /** The size is answered with RHINO_MM_POOL_SIZE_ERR. */
  predicate BadInit(addr: nat, len: nat) {
    var n := Length(addr, len);
    n == 0 || n < MIN_FREE_MEMORY + POOL_SIZE || n > Pow2(MAX_BIT)
  }

  /** Start and length of the first region, behind the heap's own bookkeeping. */
  function FirstRegion(addr: nat, len: nat, headSize: nat): (Addr, nat)
    requires headSize <= Length(addr, len)
  {
    (Start(addr) + AlignUp(headSize), (Length(addr, len) - headSize) / ALIGN * ALIGN)
  }

  /** The blocks of a fresh pool, in the order they will be handed out. */
  function Slots(start: Addr): seq<Addr> { seq(POOL_SIZE / POOL_BLK, i requires i >= 0 => start + i * POOL_BLK) }

  /** The fixed pool in a buffer of its own, if the heap has room for it. */
  function AddPool(h: Heap, poolHead: nat, quick: bool): Heap {
    match Alloc(h, POOL_SIZE + AlignUp(poolHead), quick)
    case (_, None) => h
    case (h1, Some(p)) => h1.(pool := Pool(p, p + AlignUp(poolHead), Slots(p + AlignUp(poolHead))))
  }

  const NO_HEAP := Heap(map[], map[], map[], {}, NoPool, map[])

  /** `krhino_init_mm_head` on memory of a legal size, for given sizes of k_mm_head and
      mblk_pool_t. */
  function Init(addr: nat, len: nat, headSize: nat, poolHead: nat, quick: bool): Heap
    requires !BadInit(addr, len) && headSize + INFO + 3 * HEAD + ALIGN <= MIN_FREE_MEMORY
  {
    var (a, n) := FirstRegion(addr, len, headSize);
    AddPool(NewRegion(NO_HEAP, a, n), poolHead, quick)
  }
}
