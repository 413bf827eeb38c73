/** The words the allocator writes, step by step, against the specification's
    reshaping of the heap. */
module HeapWrites {
  import opened Lists
  import opened Options
  import opened HeapLevels
  import opened HeapTiling
  import opened HeapState
  import opened DoubleLinks
  import opened HeapIndex
  import opened HeapSearch
  import opened HeapOperations
  import opened HeapSafety
  import opened HeapRealloc
  import opened HeapRuns
  import opened HeapLinks

  // ---- writing metadata ---------------------------------------------------------------

  lemma ClobberTwice(mem: Mem, a: set<Addr>, b: set<Addr>)
    ensures Clobber(Clobber(mem, a), b) == Clobber(mem, a + b)
  {
  }

  lemma ClobberNothing(mem: Mem)
    ensures Clobber(mem, {}) == mem
  {
  }

  function DeleteCells(h: Heap, b: Addr): set<Addr> {
    var l := LevelOf(h, b);
    if l < 0 then {} else LinkCells(List(h, l), b)
  }

  function InsertCells(h: Heap, b: Addr): set<Addr> {
    var l := LevelOf(h, b);
    if l < 0 then {} else PtrCells(b) + (if List(h, l) == [] then {} else PtrCells(List(h, l)[0]))
  }

  lemma DeleteMem(h: Heap, b: Addr)
    ensures Delete(h, b).mem == Clobber(h.mem, DeleteCells(h, b))
  {
    ClobberNothing(h.mem);
  }

  lemma InsertMem(h: Heap, b: Addr)
    ensures Insert(h, b).mem == Clobber(h.mem, InsertCells(h, b))
  {
    ClobberNothing(h.mem);
  }

  function Found(b: Addr): Option<Addr> { if b == NULL then None else Some(b) }

  function Written(h: Heap, b: Addr, k: Hdr): Heap {
    h.(blks := h.blks[b := k], mem := Clobber(h.mem, HdrCells(b)))
  }

  lemma IndexOf(h: Heap)
    requires HeapOk(h)
    ensures IndexOk(h, {}) && Fine(h)
  {
  }

  lemma SearchIs(h: Heap, n: nat, quick: bool)
    requires Level(n) >= 0
    ensures var up, same := FindUp(h, Level(n)), FirstFit(h.blks, List(h, Level(n)), n);
      Search(h, n, quick) == if quick then (if up.Some? then up else same) else (if same.Some? then same else up)
  {
  }

  /** What the head of a list tells. */
  lemma HeadReads(h: Heap, heads: map<int, Addr>, k: Links, l: int, skip: set<Addr>)
    requires Coupled(h, heads, k) && IndexOk(h, skip)
    ensures HeadOf(heads, l) == First(List(h, l)) && Spells(k, List(h, l))
    ensures List(h, l) != [] ==> HeadOf(heads, l) != NULL
  {
    assert ListIn(h, heads, k, l);
    if List(h, l) != [] { assert List(h, l)[0] != NULL; }
  }

  // ---- the header writes of an allocation --------------------------------------------------

  lemma FreeBlock(h: Heap, b: Addr)
    requires Fine(h) && b in h.blks && h.blks[b].free
    ensures BlocksFine(h, {}) && Plain(h.blks, h.regions, b) && b != NULL
  {
    Neighbour(h.blks, h.regions, b);
    assert InSome(h.blks, h.regions, b);
  }

  /** An unlisted free block about to be taken. */
  lemma ReadyToTake(h: Heap, b: Addr, n: nat)
    requires BlocksFine(h, {} + {b}) && Plain(h.blks, h.regions, b) && h.blks[b].free && h.blks[b].size >= n
    ensures BlocksFine(h, {b}) && Tiled(h.blks, h.regions)
    ensures var c := Nx(h.blks, b); c in h.blks && h.blks[c].prevFree && h.blks[c].prev == b
  {
    assert {} + {b} == {b};
    Neighbour(h.blks, h.regions, b);
  }

  /** Three header writes are a split. */
  lemma CutWritten(h: Heap, b: Addr, n: nat)
    requires b in h.blks && Cuttable(h.blks, b, n) && H(h.blks, Nx(h.blks, b)).prevFree
    ensures var c, rest := Nx(h.blks, b), b + HEAD + n;
      var h1 := Written(h, b, H(h.blks, b).(size := n, free := false));
      var h2 := Written(h1, rest, Hdr(H(h.blks, b).size - n - HEAD, true, false, b));
      Written(h2, c, H(h2.blks, c).(prev := rest)) == Cut(h, b, n)
  {
    hide Clobber, HdrCells;
    var c, rest := Nx(h.blks, b), b + HEAD + n;
    ClobberTwice(h.mem, HdrCells(b), HdrCells(rest));
    ClobberTwice(h.mem, HdrCells(b) + HdrCells(rest), HdrCells(c));
    CutHeaders(h.blks, b, n);
  }

  lemma CutHeaders(m: Blocks, b: Addr, n: nat)
    requires b in m && Cuttable(m, b, n) && H(m, Nx(m, b)).prevFree
    ensures var c, rest := Nx(m, b), b + HEAD + n;
      var m2 := m[b := H(m, b).(size := n, free := false)][rest := Hdr(H(m, b).size - n - HEAD, true, false, b)];
      m2[c := H(m2, c).(prev := rest)] == Split(m, b, n)
  {
  }

  lemma UsedWritten(h: Heap, b: Addr)
    requires b in h.blks
    ensures var c := Nx(h.blks, b);
      var h1 := Written(h, c, H(h.blks, c).(prevFree := false));
      Written(h1, b, H(h1.blks, b).(free := false)) == MarkFree(h, b, false)
  {
    var c := Nx(h.blks, b);
    ClobberTwice(h.mem, HdrCells(c), HdrCells(b));
    assert HdrCells(c) + HdrCells(b) == HdrCells(b) + HdrCells(c);
    hide Clobber, HdrCells;
  }

  /** Bytes already clobbered may be clobbered again. */
  lemma ClobberAgain(mem: Mem, a: set<Addr>, b: set<Addr>, c: set<Addr>)
    requires c <= a
    ensures Clobber(Clobber(Clobber(mem, a), b), c) == Clobber(Clobber(mem, a), b)
  {
  }

  lemma TrimRewritten(h: Heap, b: Addr, n: nat)
    requires b in h.blks && Cuttable(h.blks, b, n)
    ensures var h1 := Trim(h, b, n); Written(h1, b, H(h1.blks, b).(free := false)) == h1
  {
    hide Insert, Clobber, HdrCells, InsertCells, Cut, Written, H;
    var h0, rest, c := Cut(h, b, n), b + HEAD + n, Nx(h.blks, b);
    CutIs(h, b, n);
    InsertMem(h0, rest);
    ClobberAgain(h.mem, HdrCells(b) + HdrCells(rest) + HdrCells(c), InsertCells(h0, rest), HdrCells(b));
    InsertBlks(h0, rest);
    WrittenSame(Insert(h0, rest), b);
  }

  lemma CutIs(h: Heap, b: Addr, n: nat)
    requires b in h.blks
    ensures var h0, rest, c := Cut(h, b, n), b + HEAD + n, Nx(h.blks, b);
      b in h0.blks && !h0.blks[b].free && h0.mem == Clobber(h.mem, HdrCells(b) + HdrCells(rest) + HdrCells(c))
  {
    hide Clobber, HdrCells;
  }

  lemma WrittenSame(h: Heap, b: Addr)
    requires b in h.blks && !h.blks[b].free && Clobber(h.mem, HdrCells(b)) == h.mem
    ensures Written(h, b, H(h.blks, b).(free := false)) == h
  {
    hide Clobber, HdrCells;
    assert h.blks[b].(free := false) == h.blks[b];
  }

  lemma InsertBlks(h: Heap, b: Addr)
    ensures Insert(h, b).blks == h.blks
  {
  }

  /** What unlinking b reads and has to achieve. */
  lemma DeleteReads(h: Heap, heads: map<int, Addr>, k: Links, b: Addr, skip: set<Addr>)
    requires Coupled(h, heads, k) && IndexOk(h, skip) && b in h.blks && h.blks[b].free && b !in skip && LevelOf(h, b) >= 0
    ensures var l, n, p := LevelOf(h, b), L(k, b).next, L(k, b).prev;
      && n != b && p != b && (n == p ==> n == NULL)
      && LinkCells(List(h, l), b) == (if n != NULL then PtrCells(n) else {}) + (if p != NULL then PtrCells(p) else {}) + PtrCells(b)
      && (HeadOf(heads, l) == b ==> (n == NULL <==> Without(List(h, l), b) == []))
      && (HeadOf(heads, l) != b ==> Without(List(h, l), b) != [])
      && Coupled(Delete(h, b), heads[l := if HeadOf(heads, l) == b then n else HeadOf(heads, l)], Unlink(k, b))
      && (HeadOf(heads, l) != b ==> Coupled(Delete(h, b), heads, Unlink(k, b)))
  {
    hide Delete, Unlink, PtrCells, LinkCells, Linked;
    var l := LevelOf(h, b);
    var q := List(h, l);
    assert LevelOk(h, l, skip) && ListIn(h, heads, k, l) && FreeAt(h.blks, l, b);
    var i: nat :| i < |q| && q[i] == b;
    ListReads(k, q, i);
    hide IndexOk, LevelOk, ListedAre, Without, Spells, NoDup;
    DeleteCoupled(h, heads, k, b, skip);
    if HeadOf(heads, l) != b { SameHeads(Delete(h, b), heads, l, Unlink(k, b)); }
    hide Coupled;
  }

  /** The same for one list. */
  lemma ListReads(k: Links, q: seq<Addr>, i: nat)
    requires Spells(k, q) && NoDup(q) && i < |q|
    ensures var b, n, p := q[i], L(k, q[i]).next, L(k, q[i]).prev;
      && n != b && p != b && (n == p ==> n == NULL)
      && LinkCells(q, b) == (if n != NULL then PtrCells(n) else {}) + (if p != NULL then PtrCells(p) else {}) + PtrCells(b)
      && (First(q) == b ==> (n == NULL <==> Without(q, b) == []))
      && (First(q) != b ==> Without(q, b) != [])
  {
    hide PtrCells, LinkCells, Linked, Without;
    UnlinkReads(k, q, i);
    LinkedIs(q, i);
    UnlinkNulls(k, q, i);
    WithoutAt(q, i);
    CellsOf(q, q[i], At(q, i + 1), At(q, i - 1));
  }

  lemma CellsOf(q: seq<Addr>, b: Addr, n: Addr, p: Addr)
    requires Linked(q, b) == (if n != NULL then {n} else {}) + (if p != NULL then {p} else {})
    ensures LinkCells(q, b) == (if n != NULL then PtrCells(n) else {}) + (if p != NULL then PtrCells(p) else {}) + PtrCells(b)
  {
    hide Linked;
  }

  lemma SameHeads(h: Heap, heads: map<int, Addr>, l: int, k: Links)
    requires Coupled(h, heads[l := HeadOf(heads, l)], k)
    ensures Coupled(h, heads, k)
  {
    forall j ensures ListIn(h, heads, k, j) { assert ListIn(h, heads[l := HeadOf(heads, l)], k, j); }
  }

  /** The pointer words unlinking writes, one after the other. */
  lemma DeleteClobbers(mem: Mem, q: seq<Addr>, b: Addr, n: Addr, p: Addr)
    requires LinkCells(q, b) == (if n != NULL then PtrCells(n) else {}) + (if p != NULL then PtrCells(p) else {}) + PtrCells(b)
    ensures var m1 := if n != NULL then Clobber(mem, PtrCells(n)) else mem;
      var m2 := if p != NULL then Clobber(m1, PtrCells(p)) else m1;
      Clobber(m2, PtrCells(b)) == Clobber(mem, LinkCells(q, b))
  {
    hide PtrCells, LinkCells;
  }

  lemma UnlinkNulls(k: Links, q: seq<Addr>, i: nat)
    requires Spells(k, q) && i < |q|
    ensures At(q, i - 1) != NULL <==> i > 0
    ensures At(q, i + 1) != NULL <==> i + 1 < |q|
  {
    if i > 0 { assert q[i - 1] != NULL; }
    if i + 1 < |q| { assert q[i + 1] != NULL; }
  }

  // ---- the header writes of a free ------------------------------------------------------------

  /** While freeing, the header after the freed block is written last. The heap in
      memory is the specified one but for that header. */
  ghost predicate Lags(code: Heap, spec: Heap, b: Addr) {
    var d := Nx(code.blks, b);
    && b in code.blks && b != NULL
    && spec.blks == code.blks[d := H(code.blks, d).(prev := b, prevFree := true)]
    && spec.mem == Clobber(code.mem, HdrCells(d))
    && spec.lists == code.lists && spec.bits == code.bits && spec.pool == code.pool && spec.regions == code.regions
  }

  /** What freeing b relies on. */
  ghost predicate FreeReady(h: Heap, b: Addr) {
    var c := Nx(h.blks, b);
    && b in h.blks && !h.blks[b].free && b != NULL && h.blks[b].size > 0
    && c in h.blks && h.blks[c].prev == b && c != b
    && (h.blks[c].free ==> h.blks[c].size > 0 && Nx(h.blks, c) != b)
    && (h.blks[b].prevFree ==> PrevReady(h, b))
  }

  predicate PrevReady(h: Heap, b: Addr) {
    var p := H(h.blks, b).prev;
    p in h.blks && h.blks[p].free && Nx(h.blks, p) == b && p != NULL && p < b
  }

  lemma LiveReady(h: Heap, b: Addr)
    requires HeapOk(h) && Live(h, b + HEAD) && !InPool(h, b + HEAD)
    ensures FreeReady(h, b)
  {
    var m, r := h.blks, h.regions;
    Neighbour(m, r, b);
    assert InSome(m, r, b);
    if H(m, Nx(m, b)).free { Neighbour(m, r, Nx(m, b)); }
    if m[b].prevFree {
      var p := Before(m, r, b);
      assert InSome(m, r, p);
    }
  }

  /** The successor is in use: only the bit is set. */
  lemma LagStart(h: Heap, b: Addr)
    requires FreeReady(h, b) && !H(h.blks, Nx(h.blks, b)).free
    ensures Lags(Written(h, b, H(h.blks, b).(free := true)), MarkFree(JoinNext(h, b), b, true), b)
  {
    ClobberTwice(h.mem, HdrCells(b), HdrCells(Nx(h.blks, b)));
    hide Clobber, HdrCells;
  }

  /** The header of the absorbed block is no longer one. */
  function Absorb(h: Heap, b: Addr, c: Addr): Heap {
    var h1 := Written(h, b, H(h.blks, b).(size := H(h.blks, b).size + HEAD + H(h.blks, c).size));
    h1.(blks := h1.blks - {c})
  }

  /** The successor is free: it is unlinked and absorbed. */
  lemma LagMerge(h: Heap, b: Addr)
    requires FreeReady(h, b) && H(h.blks, Nx(h.blks, b)).free
    ensures var c := Nx(h.blks, b);
      Lags(Absorb(Delete(Written(h, b, H(h.blks, b).(free := true)), c), b, c), MarkFree(JoinNext(h, b), b, true), b)
  {
    var c := Nx(h.blks, b);
    var h0 := Written(h, b, H(h.blks, b).(free := true));
    var code, spec := Absorb(Delete(h0, c), b, c), MarkFree(JoinNext(h, b), b, true);
    hide Clobber, HdrCells, DeleteCells, Delete, List, SetFree, Merge;
    LagMergeMem(h, b);
    DeleteRest(h, c);
    DeleteRest(h0, c);
    DeleteSame(h, h0, c);
    LagMergeBlks(h.blks, b);
  }

  lemma DeleteRest(h: Heap, x: Addr)
    ensures Delete(h, x).blks == h.blks && Delete(h, x).regions == h.regions && Delete(h, x).pool == h.pool
    ensures Delete(h, x).mem == Clobber(h.mem, DeleteCells(h, x))
  {
    DeleteMem(h, x);
    hide Clobber, LinkCells, Without, Level, DeleteCells;
  }

  /** Unlinking depends on the lists and the block's size only. */
  lemma DeleteSame(h: Heap, h1: Heap, x: Addr)
    requires h1.lists == h.lists && h1.bits == h.bits && H(h1.blks, x).size == H(h.blks, x).size
    ensures Delete(h1, x).lists == Delete(h, x).lists && Delete(h1, x).bits == Delete(h, x).bits && DeleteCells(h1, x) == DeleteCells(h, x)
  {
    hide Clobber, LinkCells, Without, Level;
  }

  lemma LagMergeBlks(m: Blocks, b: Addr)
    requires b in m && !m[b].free && Nx(m, b) in m && Nx(m, b) != b && m[Nx(m, b)].free && Nx(m, Nx(m, b)) != b && m[Nx(m, b)].size > 0
    ensures var c := Nx(m, b);
      var k := m[b].(free := true, size := m[b].size + HEAD + m[c].size);
      var code := m[b := m[b].(free := true)][b := k] - {c};
      var d := Nx(code, b);
      && SetFree(Merge(m, b), b, true) == code[d := H(code, d).(prev := b, prevFree := true)]
      && d == Nx(m, c) && Nx(Merge(m, b), b) == d
  {
  }

  lemma LagMergeMem(h: Heap, b: Addr)
    requires FreeReady(h, b)
    ensures var c := Nx(h.blks, b);
      var d := Nx(h.blks, c);
      var code := Clobber(Clobber(Clobber(h.mem, HdrCells(b)), DeleteCells(h, c)), HdrCells(b));
      var spec := Clobber(Clobber(Clobber(h.mem, DeleteCells(h, c)), HdrCells(b) + HdrCells(d)), HdrCells(b) + HdrCells(d));
      spec == Clobber(code, HdrCells(d))
  {
    var c := Nx(h.blks, b);
    MergeOrder(h.mem, HdrCells(b), DeleteCells(h, c), HdrCells(Nx(h.blks, c)));
  }

  lemma MergeOrder(mem: Mem, b: set<Addr>, x: set<Addr>, d: set<Addr>)
    ensures Clobber(Clobber(Clobber(mem, x), b + d), b + d) == Clobber(Clobber(Clobber(Clobber(mem, b), x), b), d)
  {
  }

  /** The predecessor is free too: it is unlinked and absorbs the block. */
  lemma LagPrev(code: Heap, spec: Heap, b: Addr)
    requires Lags(code, spec, b) && PrevReady(code, b)
    ensures var p := code.blks[b].prev; Lags(Absorb(Delete(code, p), p, b), Join(Delete(spec, p), p), p)
  {
    var p, d := code.blks[b].prev, Nx(code.blks, b);
    hide Clobber, HdrCells, DeleteCells, Delete, List, Merge;
    DeleteRest(code, p);
    DeleteRest(spec, p);
    DeleteSame(code, spec, p);
    LagPrevBlks(code.blks, b);
    PrevOrder(code.mem, HdrCells(d), DeleteCells(code, p), HdrCells(p));
  }

  lemma LagPrevBlks(m: Blocks, b: Addr)
    requires b in m && m[b].prev in m && m[m[b].prev].free && Nx(m, m[b].prev) == b && m[b].prev < b
    ensures var p, d := m[b].prev, Nx(m, b);
      var spec := m[d := H(m, d).(prev := b, prevFree := true)];
      var code := m[p := m[p].(size := m[p].size + HEAD + m[b].size)] - {b};
      && Merge(spec, p) == code[d := H(code, d).(prev := p, prevFree := true)]
      && Nx(code, p) == d && Nx(spec, Nx(spec, p)) == d
  {
  }

  lemma PrevOrder(mem: Mem, d: set<Addr>, x: set<Addr>, p: set<Addr>)
    ensures Clobber(Clobber(Clobber(mem, d), x), p + d) == Clobber(Clobber(Clobber(mem, x), p), d)
  {
    hide Clobber;
    ThreeClobbers(mem, d, x, p + d);
    ThreeClobbers(mem, x, p, d);
    assert d + x + (p + d) == x + p + d;
  }

  lemma LagInsert(code: Heap, spec: Heap, b: Addr)
    requires Lags(code, spec, b)
    ensures Lags(Insert(code, b), Insert(spec, b), b)
  {
    var d := Nx(code.blks, b);
    InsertMem(code, b);
    InsertMem(spec, b);
    InsertRest(code, spec, b);
    hide Clobber, HdrCells, Insert, InsertCells;
    Swap(code.mem, HdrCells(d), InsertCells(code, b));
  }

  lemma InsertRest(h: Heap, h1: Heap, b: Addr)
    requires h1.lists == h.lists && h1.bits == h.bits && h1.pool == h.pool && h1.regions == h.regions && H(h1.blks, b).size == H(h.blks, b).size
    ensures var i, i1 := Insert(h, b), Insert(h1, b);
      i.blks == h.blks && i1.blks == h1.blks && i1.lists == i.lists && i1.bits == i.bits && i1.pool == i.pool && i1.regions == i.regions
    ensures InsertCells(h1, b) == InsertCells(h, b)
  {
    hide Clobber, Level, PtrCells;
  }

  lemma Swap(mem: Mem, a: set<Addr>, b: set<Addr>)
    ensures Clobber(Clobber(mem, a), b) == Clobber(Clobber(mem, b), a)
  {
  }

  /** With the last header the heap in memory is the specified one. */
  lemma LagEnd(code: Heap, spec: Heap, b: Addr)
    requires Lags(code, spec, b)
    ensures var d := Nx(code.blks, b); Written(code, d, H(code.blks, d).(prev := b, prevFree := true)) == spec
  {
  }

  // ---- the index meanwhile ---------------------------------------------------------------------

  lemma FreedIndex(h: Heap, b: Addr)
    requires IndexOk(h, {}) && b in h.blks && !h.blks[b].free
    ensures IndexOk(Written(h, b, H(h.blks, b).(free := true)), {b})
  {
    ReshapeIndex(h, Written(h, b, H(h.blks, b).(free := true)), {}, {b});
  }

  lemma AbsorbIndex(h: Heap, b: Addr, c: Addr, skip: set<Addr>)
    requires IndexOk(h, skip) && b in skip && c in skip && b != c
    ensures IndexOk(Absorb(h, b, c), skip - {c})
  {
    ReshapeIndex(h, Absorb(h, b, c), skip, skip - {c});
  }

  // ---- the two halves of a free ---------------------------------------------------------------

  /** The bit is set and a free successor absorbed. */
  function Forward(h: Heap, b: Addr): Heap {
    var h0, c := Written(h, b, H(h.blks, b).(free := true)), Nx(h.blks, b);
    if H(h.blks, c).free then Absorb(Delete(h0, c), b, c) else h0
  }

  /** A free predecessor absorbs the block. */
  function Backward(h: Heap, b: Addr): (Heap, Addr) {
    var p := H(h.blks, b).prev;
    if H(h.blks, b).prevFree then (Absorb(Delete(h, p), p, b), p) else (h, b)
  }

  lemma ForwardIndex(h: Heap, b: Addr)
    requires FreeReady(h, b) && IndexOk(h, {})
    ensures IndexOk(Forward(h, b), {b})
  {
    var h0, c := Written(h, b, H(h.blks, b).(free := true)), Nx(h.blks, b);
    FreedIndex(h, b);
    if H(h.blks, c).free {
      assert c in h0.blks && h0.blks[c].free;
      hide IndexOk, Written, Delete;
      DeleteIndex(h0, c, {b});
      AbsorbIndex(Delete(h0, c), b, c, {b} + {c});
      assert {b} + {c} - {c} == {b};
    }
  }

  lemma ForwardBlks(h: Heap, b: Addr)
    requires FreeReady(h, b)
    ensures var m1 := Forward(h, b).blks;
      && b in m1 && m1[b].free && m1[b].prev == h.blks[b].prev && m1[b].prevFree == h.blks[b].prevFree
      && (m1[b].prevFree ==> PrevReady(Forward(h, b), b))
  {
    var h0, c := Written(h, b, H(h.blks, b).(free := true)), Nx(h.blks, b);
    DeleteRest(h0, c);
    hide Delete, Clobber, HdrCells, DeleteCells;
  }

  lemma LagsAt(code: Heap, spec: Heap, b: Addr)
    requires Lags(code, spec, b)
    ensures b in code.blks && b != NULL
  {
  }

  lemma ForwardLags(h: Heap, b: Addr)
    requires FreeReady(h, b)
    ensures Lags(Forward(h, b), MarkFree(JoinNext(h, b), b, true), b)
  {
    if H(h.blks, Nx(h.blks, b)).free { LagMerge(h, b); } else { LagStart(h, b); }
  }

  lemma BackwardIndex(h: Heap, b: Addr)
    requires IndexOk(h, {b}) && b in h.blks && h.blks[b].free && (h.blks[b].prevFree ==> PrevReady(h, b))
    ensures var (h1, f) := Backward(h, b); IndexOk(h1, {f}) && f in h1.blks
  {
    var p := H(h.blks, b).prev;
    if H(h.blks, b).prevFree {
      DeleteIndex(h, p, {b});
      DeleteRest(h, p);
      hide IndexOk, Delete;
      AbsorbIndex(Delete(h, p), p, b, {b} + {p});
      assert {b} + {p} - {b} == {p};
    }
  }

  lemma BackwardLags(code: Heap, spec: Heap, b: Addr)
    requires Lags(code, spec, b) && (code.blks[b].prevFree ==> PrevReady(code, b))
    ensures var (h1, f) := Backward(code, b); JoinPrev(spec, b).1 == f && Lags(h1, JoinPrev(spec, b).0, f)
  {
    if code.blks[b].prevFree { LagPrev(code, spec, b); }
    hide Join, Absorb, Delete, Clobber, HdrCells;
  }

  // ---- a new region's frame -------------------------------------------------------------------

  lemma FrameReady(h: Heap, a: Addr, n: nat)
    requires RegionSize(a, n) && Fine(h) && Unused(h.regions, a, n)
    ensures FreeReady(Frame(h, a, n), a + HEAD + INFO) && IndexOk(Frame(h, a, n), {})
  {
    GrownIs(h.blks, h.regions, a, n);
    FineParts(h);
    FrameBlks(h.blks, a, n);
    hide Fine, Grown, Tiled, Clobber, IndexOk, Coalesced, Region, RegionSize;
    ReshapeIndex(h, Frame(h, a, n), {}, {});
  }

  lemma FrameBlks(m: Blocks, a: Addr, n: nat)
    requires RegionSize(a, n) && a !in m && a + HEAD + INFO !in m && a + n - HEAD !in m
    ensures var mid, last := a + HEAD + INFO, a + n - HEAD;
      var m1 := m + Region(a, n);
      && m1 == m[a := Hdr(INFO, false, false, 0)][mid := Hdr(last - mid - HEAD, false, false, 0)][last := Hdr(0, false, true, mid)]
      && m1[mid] == Hdr(last - mid - HEAD, false, false, 0) && m1[last] == Hdr(0, false, true, mid)
      && (forall l, x :: FreeAt(m1, l, x) <==> FreeAt(m, l, x))
  {
  }

  /** memset and three headers are the frame. */
  lemma FrameWritten(h: Heap, a: Addr, n: nat)
    requires RegionSize(a, n) && a !in h.blks && a + HEAD + INFO !in h.blks && a + n - HEAD !in h.blks
    ensures var mid, last := a + HEAD + INFO, a + n - HEAD;
      var h0 := h.(mem := Clobber(h.mem, Cells(a, n)), regions := h.regions[a := last]);
      var h1 := Written(h0, a, Hdr(INFO, false, false, 0));
      var h2 := Written(h1, mid, Hdr(last - mid - HEAD, false, false, 0));
      Written(h2, last, Hdr(0, false, true, mid)) == Frame(h, a, n)
  {
    hide Clobber, Cells, Region, HdrCells;
    FrameBlks(h.blks, a, n);
    FrameCells(a, n);
    ClobberInside(h.mem, Cells(a, n), HdrCells(a));
    ClobberInside(h.mem, Cells(a, n), HdrCells(a + HEAD + INFO));
    ClobberInside(h.mem, Cells(a, n), HdrCells(a + n - HEAD));
  }

  lemma FrameCells(a: Addr, n: nat)
    requires RegionSize(a, n)
    ensures HdrCells(a) <= Cells(a, n) && HdrCells(a + HEAD + INFO) <= Cells(a, n) && HdrCells(a + n - HEAD) <= Cells(a, n)
  {
  }

  lemma ClobberInside(mem: Mem, a: set<Addr>, c: set<Addr>)
    requires c <= a
    ensures Clobber(Clobber(mem, a), c) == Clobber(mem, a)
  {
  }

  // ---- the header writes of a reallocation -------------------------------------------------------

  lemma ThreeClobbers(mem: Mem, a: set<Addr>, b: set<Addr>, c: set<Addr>)
    ensures Clobber(Clobber(Clobber(mem, a), b), c) == Clobber(mem, a + b + c)
  {
  }

  /** Cutting b, whose successor is c. */
  lemma ShrinkWritten(h: Heap, b: Addr, n: nat)
    requires b in h.blks && Cuttable(h.blks, b, n) && !h.blks[b].free
    ensures var c, rest := Nx(h.blks, b), b + HEAD + n;
      var h1 := Written(h, b, H(h.blks, b).(size := n));
      var h2 := Written(h1, rest, Hdr(H(h.blks, b).size - n - HEAD, true, false, b));
      Written(h2, c, H(h2.blks, c).(prev := rest, prevFree := true)) == Cut(h, b, n)
  {
    hide Clobber, HdrCells;
    ThreeClobbers(h.mem, HdrCells(b), HdrCells(b + HEAD + n), HdrCells(Nx(h.blks, b)));
    ShrinkBlks(h.blks, b, n);
  }

  lemma ShrinkBlks(m: Blocks, b: Addr, n: nat)
    requires b in m && Cuttable(m, b, n) && !m[b].free
    ensures var c, rest := Nx(m, b), b + HEAD + n;
      var m2 := m[b := m[b].(size := n)][rest := Hdr(m[b].size - n - HEAD, true, false, b)];
      m2[c := H(m2, c).(prev := rest, prevFree := true)] == Split(m, b, n)
  {
  }

  /** Cutting b and the free successor c that it swallows, c being unlinked. */
  lemma SwallowWritten(h: Heap, b: Addr, n: nat)
    requires b in h.blks && !h.blks[b].free && Nx(h.blks, b) in h.blks && Nx(h.blks, b) != b && n <= h.blks[b].size
    requires H(h.blks, Nx(h.blks, b)).size >= MIN_SIZE
    ensures var c := Nx(h.blks, b);
      var d, rest := Nx(h.blks, c), b + HEAD + n;
      var size := h.blks[b].size + HEAD + h.blks[c].size;
      var h0 := h.(blks := h.blks - {c});
      var h1 := Written(h0, b, H(h0.blks, b).(size := n));
      var h2 := Written(h1, rest, Hdr(size - n - HEAD, true, false, b));
      Written(h2, d, H(h2.blks, d).(prev := rest, prevFree := true)) == Cut(Join(h, b), b, n)
  {
    hide Clobber, HdrCells;
    var c := Nx(h.blks, b);
    SwallowOrder(h.mem, HdrCells(b), HdrCells(b + HEAD + n), HdrCells(Nx(h.blks, c)));
    SwallowBlks(h.blks, b, n);
  }

  lemma SwallowOrder(mem: Mem, b: set<Addr>, r: set<Addr>, d: set<Addr>)
    ensures Clobber(Clobber(Clobber(mem, b), r), d) == Clobber(Clobber(mem, b + d), b + r + d)
  {
    hide Clobber;
    ThreeClobbers(mem, b, r, d);
    ClobberTwice(mem, b + d, b + r + d);
    assert (b + d) + (b + r + d) == b + r + d;
  }

  lemma SwallowBlks(m: Blocks, b: Addr, n: nat)
    requires b in m && !m[b].free && Nx(m, b) in m && n <= m[b].size && H(m, Nx(m, b)).size >= MIN_SIZE
    ensures var c := Nx(m, b);
      var d, rest := Nx(m, c), b + HEAD + n;
      var m0 := m - {c};
      var m2 := m0[b := H(m0, b).(size := n)][rest := Hdr(m[b].size + HEAD + m[c].size - n - HEAD, true, false, b)];
      && m2[d := H(m2, d).(prev := rest, prevFree := true)] == Split(Merge(m, b), b, n)
      && Nx(Merge(m, b), b) == d
  {
  }

  /** Taking over the successor c, already unlinked. */
  lemma JoinWritten(h: Heap, b: Addr)
    requires b in h.blks && !h.blks[b].free && Nx(h.blks, b) in h.blks && Nx(h.blks, b) != b && Nx(h.blks, Nx(h.blks, b)) != b
    ensures var h1 := Absorb(h, b, Nx(h.blks, b));
      var d := Nx(h1.blks, b);
      Written(h1, d, H(h1.blks, d).(prev := b, prevFree := false)) == Join(h, b)
  {
    hide Clobber, HdrCells;
    var c := Nx(h.blks, b);
    ClobberTwice(h.mem, HdrCells(b), HdrCells(Nx(h.blks, c)));
  }

  // ---- states in the middle of a reallocation -----------------------------------------------------

  /** What resizing b in place starts from. */
  lemma ResizeReady(h: Heap, b: Addr)
    requires HeapOk(h) && Live(h, b + HEAD) && !InPool(h, b + HEAD)
    ensures var c := Nx(h.blks, b); Fine(h) && IndexOk(h, {}) && Plain(h.blks, h.regions, b) && Used(h.blks, b) && c in h.blks
    ensures var c := Nx(h.blks, b); h.blks[c].free ==> h.blks[c].size >= MIN_SIZE && c != b && Nx(h.blks, c) != b
    ensures var c := Nx(h.blks, b); !h.blks[c].free ==> JoinNext(h, b) == h
  {
    Neighbour(h.blks, h.regions, b);
    Neighbour(h.blks, h.regions, Nx(h.blks, b));
  }

  /** Once the rest is cut off it can be listed. */
  lemma CutReady(h: Heap, b: Addr, n: nat)
    requires Fine(h) && Plain(h.blks, h.regions, b) && Used(h.blks, b)
    requires n % ALIGN == 0 && n >= MIN_SIZE && Cuttable(JoinNext(h, b).blks, b, n)
    ensures var rest := b + HEAD + n; IndexOk(Cut(JoinNext(h, b), b, n), {rest}) && rest != NULL
    ensures InPlace(h, b, n) == Insert(Cut(JoinNext(h, b), b, n), b + HEAD + n)
  {
    hide Tiled, IndexOk, Coalesced, JoinNext, Cut, Insert, Others, AllQuiet;
    JoinNextFine(h, b);
    CutFine(JoinNext(h, b), b, n, {});
    assert {} - {b} + {b + HEAD + n} == {b + HEAD + n};
  }

  lemma LiveHead(h: Heap, p: Addr)
    requires Live(h, p) && !InPool(h, p)
    ensures p >= HEAD
  {
  }

  /** The heap after allocating and copying, about to free the old block. */
  lemma MoveReady(h: Heap, p: Addr, size: nat, keep: nat, quick: bool)
    requires HeapOk(h) && Live(h, p) && 0 < size && keep <= Room(h, p)
    requires keep <= Needed(size) && (size <= POOL_BLK ==> keep <= size)
    requires Alloc(h, size, quick).1.Some?
    ensures var (h1, r) := Alloc(h, size, quick);
      var h2 := h1.(mem := Copy(h1.mem, r.value, p, keep));
      HeapOk(h2) && Live(h2, p)
  {
    hide Alloc, HeapOk, Live, Copy, Kept, Needed, InPool, Room, SameBytes;
    var (h1, r) := Alloc(h, size, quick);
    AllocIsSafe(h, size, quick);
    NeededOrPool(h, h1, r.value, size);
    assert Kept(h, h1, p);
    KeptIs(h, h1, p);
    CopySafe(h1, p, r.value, keep);
  }

  lemma RegionPlaced(h: Heap, a: Addr, n: nat)
    requires HeapOk(h) && Unused(h.regions, a, n) && RegionSize(a, n)
    ensures a !in h.blks && a + HEAD + INFO !in h.blks && a + n - HEAD !in h.blks
    ensures FreeReady(Frame(h, a, n), a + HEAD + INFO) && IndexOk(Frame(h, a, n), {})
  {
    GrownIs(h.blks, h.regions, a, n);
    FrameReady(h, a, n);
  }

  lemma EmptyLists()
    ensures Coupled(NO_HEAP, map[], map[])
  {
    forall l ensures ListIn(NO_HEAP, map[], map[], l) {}
  }

  lemma PoolRequest(poolHead: nat)
    requires poolHead <= POOL_SIZE
    ensures POOL_SIZE + AlignUp(poolHead) < SIZE_SPAN
  {
  }

  lemma AllocNone(h: Heap, size: nat, quick: bool)
    requires HeapOk(h)
    ensures Alloc(h, size, quick).1.None? ==> Alloc(h, size, quick).0 == h
  {
    AllocIsSafe(h, size, quick);
    hide Alloc;
  }
}
