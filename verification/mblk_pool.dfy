/** The pool of fixed-size blocks: its blocks are chained through their first words. */
module MblkPool {
  import opened Lists
  import opened Multiples

  type Addr = nat

  const SIZE_SPAN: nat := 0x1_0000_0000
  /** sizeof(void *) */
  const WORD: nat := 4

  datatype Status = Success | PoolSizeErr | InvAlign | NoMem

  /** start, size and block size; the chain of blocks to hand out; the counter of
      available ones; and, for the specification only, what users hold. */
  datatype State = State(start: Addr, size: nat, blk: nat, chain: seq<Addr>, avail: nat, live: set<Addr>)

  /** Blocks start, start + blk, ... n of them. */
  function Row(start: Addr, blk: nat, n: nat): (q: seq<Addr>)
    ensures |q| == n
  {
    seq(n, i requires i >= 0 => start + i * blk)
  }

  /** Which parameters `krhino_mblk_pool_init` refuses. */
  function Check(start: Addr, blk: nat, size: nat): Status {
    if size < 2 * blk % SIZE_SPAN then PoolSizeErr
    else if start % WORD > 0 || blk % WORD > 0 || size % WORD > 0 then InvAlign
    else Success
  }

  /** Blocks that lie wholly in the pool, and links: one more when the size is not a
      multiple of the block size. A pool of size 0 has a single block of size 0. */
  function Whole(blk: nat, size: nat): nat { if blk == 0 then 1 else size / blk }

  function Links(blk: nat, size: nat): nat {
    if blk == 0 then 1 else if size % blk == 0 && size > 0 then size / blk else size / blk + 1
  }

  function Init(start: Addr, blk: nat, size: nat): State {
    State(start, size, blk, Row(start, blk, Links(blk, size)), Whole(blk, size), {})
  }

  /** `krhino_mblk_alloc` */
  function Alloc(s: State): (State, Status, Addr) {
    if s.avail > 0 && s.chain != [] then
      (s.(chain := s.chain[1..], avail := s.avail - 1, live := s.live + {s.chain[0]}), Success, s.chain[0])
    else (s, NoMem, 0)
  }

  /** `krhino_mblk_free` */
  function Free(s: State, b: Addr): State {
    s.(chain := [b] + s.chain, avail := s.avail + 1, live := s.live - {b})
  }

  /** Parameters pass the checks exactly if all are multiples of 4 and the pool holds at
      least two blocks; a block size from half the address space on is taken for less. */
  lemma CheckIs(start: Addr, blk: nat, size: nat)
    requires 0 < blk < 0x8000_0000
    ensures Check(start, blk, size) == Success <==> start % 4 == 0 && blk % 4 == 0 && size % 4 == 0 && size / blk >= 2
    ensures Check(start, blk, size) == PoolSizeErr <==> size / blk < 2
  {
    TwoBlocks(blk, size);
  }

  lemma TwoBlocks(blk: nat, size: nat)
    requires blk > 0
    ensures size < 2 * blk <==> size / blk < 2
  {
    var w := size / blk;
    assert w * blk <= size < w * blk + blk;
    if w >= 2 { MulMono(2, w, blk); } else { MulMono(w, 1, blk); }
  }

  // ---- the loop that threads the chain ----------------------------------------------------

  /** `blk_cur` after k turns, in 32-bit arithmetic. */
  function Cur(start: Addr, blk: nat, k: nat): Addr { (start + k * blk) % SIZE_SPAN }

  /** Turn j leads to a higher block of the pool. */
  predicate Up(start: Addr, blk: nat, size: nat, j: nat) {
    Cur(start, blk, j) < Cur(start, blk, j + 1) < start + size
  }

  /** The loop leaves after k turns, each of them up. */
  ghost predicate LeavesAfter(start: Addr, blk: nat, size: nat, k: nat) {
    Cur(start, blk, k + 1) >= start + size && forall j :: 0 <= j < k ==> Up(start, blk, size, j)
  }

  /** The loop does not stand still, and the pointer behind the last block does not wrap. */
  predicate Ends(start: Addr, blk: nat, size: nat) {
    if blk == 0 then size == 0 else start + Links(blk, size) * blk < SIZE_SPAN
  }

  lemma NextCur(start: Addr, blk: nat, k: nat)
    requires start + k * blk < SIZE_SPAN && blk < SIZE_SPAN
    ensures Cur(start, blk, k) == start + k * blk
    ensures Cur(start, blk, k + 1) == if start + (k + 1) * blk < SIZE_SPAN then start + (k + 1) * blk else start + (k + 1) * blk - SIZE_SPAN
    ensures start + (k + 1) * blk >= SIZE_SPAN ==> Cur(start, blk, k + 1) < Cur(start, blk, k)
  {
    assert (k + 1) * blk == k * blk + blk;
  }

  lemma {:induction false} UpsAreFlat(start: Addr, blk: nat, size: nat, k: nat)
    requires start < SIZE_SPAN && blk < SIZE_SPAN && forall j :: 0 <= j < k ==> Up(start, blk, size, j)
    ensures start + k * blk < SIZE_SPAN
  {
    if k > 0 {
      UpsAreFlat(start, blk, size, k - 1);
      NextCur(start, blk, k - 1);
      assert Up(start, blk, size, k - 1);
    }
  }

  /** How many links there are: the least positive number that covers the pool. */
  predicate Covers(blk: nat, size: nat, n: nat) {
    n > 0 && size <= n * blk && (n == 1 || (n - 1) * blk < size)
  }

  lemma LinksCover(blk: nat, size: nat)
    requires blk > 0
    ensures Covers(blk, size, Links(blk, size))
  {
    var w := size / blk;
    assert w * blk <= size < w * blk + blk;
    assert (w + 1) * blk == w * blk + blk;
    if size % blk == 0 && w > 0 {
      assert w * blk == size;
      assert (w - 1) * blk == w * blk - blk;
    } else if w > 0 {
      if w * blk == size { MulMod(w, blk); }
    }
  }

  lemma CoverOnce(blk: nat, size: nat, m: nat, n: nat)
    requires Covers(blk, size, m) && Covers(blk, size, n)
    ensures m == n
  {
    if m < n { MulMono(m, n - 1, blk); }
    if n < m { MulMono(n, m - 1, blk); }
  }

  lemma LinksIs(blk: nat, size: nat, n: nat)
    requires blk > 0
    ensures n == Links(blk, size) <==> n > 0 && size <= n * blk && (n == 1 || (n - 1) * blk < size)
  {
    hide Links;
    LinksCover(blk, size);
    if Covers(blk, size, n) { CoverOnce(blk, size, n, Links(blk, size)); }
  }

  /** The initialisation ends with a chain of ever higher blocks exactly if `Ends`. */
  lemma LoopEnds(start: Addr, blk: nat, size: nat)
    requires start + size < SIZE_SPAN && blk < SIZE_SPAN
    ensures (exists k: nat :: LeavesAfter(start, blk, size, k)) <==> Ends(start, blk, size)
  {
    hide Cur, Links;
    if k: nat :| LeavesAfter(start, blk, size, k) {
      UpsAreFlat(start, blk, size, k);
      NextCur(start, blk, k);
      assert k > 0 ==> Up(start, blk, size, k - 1);
      if blk > 0 { LinksIs(blk, size, k + 1); }
    }
    if Ends(start, blk, size) {
      var k := LastTurn(start, blk, size);
    }
  }

  lemma LastTurn(start: Addr, blk: nat, size: nat) returns (k: nat)
    requires start + size < SIZE_SPAN && blk < SIZE_SPAN && Ends(start, blk, size)
    ensures k + 1 == Links(blk, size) && LeavesAfter(start, blk, size, k)
  {
    hide Cur;
    if blk == 0 {
      k := 0;
      NextCur(start, blk, 0);
    } else {
      LinksIs(blk, size, Links(blk, size));
      k := Links(blk, size) - 1;
      hide Links;
      MulMono(k, k + 1, blk);
      NextCur(start, blk, k);
      forall j | 0 <= j < k ensures Up(start, blk, size, j) {
        MulMono(j + 1, k, blk);
        assert (j + 1) * blk == j * blk + blk;
        NextCur(start, blk, j);
      }
    }
  }

  /** Parameters that pass the checks of `krhino_mblk_pool_init`, and yet it does not end
      with a chain: a block size of 0, and blocks whose end lies behind the last address. */
  lemma Endless()
    ensures Check(4, 0, 4) == Success && !Ends(4, 0, 4)
    ensures Check(0x8000_0000, 0x8000_0000, 8) == Success && !Ends(0x8000_0000, 0x8000_0000, 8)
  {
  }

  // ---- the invariant -----------------------------------------------------------------------

  /** A block at its place and wholly inside the pool. */
  predicate Slot(s: State, b: Addr) {
    s.start <= b && b + s.blk <= s.start + s.size && (s.blk > 0 ==> (b - s.start) % s.blk == 0)
  }

  /** The partial block at the end of a pool whose size is no multiple of the block size. */
  function Tail(s: State): seq<Addr> {
    if s.blk == 0 || (s.size % s.blk == 0 && s.size > 0) then [] else [s.start + s.size / s.blk * s.blk]
  }

  function Set(q: seq<Addr>): set<Addr> { set x | x in q }

  function Slots(s: State): set<Addr> { Set(Row(s.start, s.blk, Whole(s.blk, s.size))) }

  /** The chain is the available blocks with the partial one at the bottom; available
      and live blocks are, each once, the blocks of the pool. */
  ghost predicate Inv(s: State) {
    && (s.blk > 0 || s.size == 0) && s.avail <= |s.chain|
    && s.chain[s.avail..] == Tail(s)
    && NoDup(s.chain[..s.avail])
    && Set(s.chain[..s.avail]) !! s.live
    && Set(s.chain[..s.avail]) + s.live == Slots(s)
  }

  lemma RowIs(start: Addr, blk: nat, n: nat, b: Addr)
    requires blk > 0
    ensures b in Row(start, blk, n) <==> start <= b && (b - start) % blk == 0 && b < start + n * blk
  {
    var q := Row(start, blk, n);
    if b in q {
      var i :| 0 <= i < n && q[i] == b;
      Multiple(i, blk, n);
    }
    if start <= b && (b - start) % blk == 0 && b < start + n * blk {
      var i := (b - start) / blk;
      Below(b - start, blk, n);
      assert q[i] == b;
    }
  }

  lemma Multiple(i: nat, blk: nat, n: nat)
    requires blk > 0 && i < n
    ensures i * blk % blk == 0 && i * blk < n * blk && (i + 1) * blk <= n * blk
  {
    MulMod(i, blk);
    MulMono(i + 1, n, blk);
  }

  lemma Below(x: nat, blk: nat, n: nat)
    requires blk > 0 && x % blk == 0 && x < n * blk
    ensures x / blk < n && x / blk * blk == x
  {
    if x / blk >= n { MulMono(n, x / blk, blk); }
  }

  lemma SlotsAre(s: State, b: Addr)
    requires s.blk > 0 || s.size == 0
    ensures b in Slots(s) <==> Slot(s, b)
  {
    if s.blk == 0 {
      assert Row(s.start, 0, 1) == [s.start];
      return;
    }
    RowIs(s.start, s.blk, s.size / s.blk, b);
    hide Row;
    if s.start <= b && (b - s.start) % s.blk == 0 { LastWhole(s.blk, s.size, b - s.start); }
  }

  /** A block starts before the last whole one ends exactly if it ends in the pool. */
  lemma LastWhole(blk: nat, size: nat, x: nat)
    requires blk > 0 && x % blk == 0
    ensures x < size / blk * blk <==> x + blk <= size
  {
    var w := size / blk;
    assert w * blk <= size < w * blk + blk;
    MulMod(w, blk);
    if x < w * blk { Strided(blk, x, w * blk); }
    if w * blk < x { Strided(blk, w * blk, x); }
  }

  lemma RowDistinct(start: Addr, blk: nat, n: nat)
    requires blk > 0 || n <= 1
    ensures NoDup(Row(start, blk, n))
  {
    var q := Row(start, blk, n);
    forall i, j | 0 <= i < j < n ensures q[i] != q[j] { Multiple(i, blk, j); }
  }

  lemma {:induction false} CardOfSet(q: seq<Addr>)
    requires NoDup(q)
    ensures |Set(q)| == |q|
  {
    if q != [] {
      var t := q[..|q| - 1];
      CardOfSet(t);
      assert q == t + [q[|q| - 1]];
      assert Set(q) == Set(t) + {q[|q| - 1]};
    }
  }

  // ---- what the pool promises ------------------------------------------------------------------

  lemma InitInv(start: Addr, blk: nat, size: nat)
    requires blk > 0 || size == 0
    ensures Inv(Init(start, blk, size))
  {
    var s := Init(start, blk, size);
    var w := Whole(blk, size);
    RowDistinct(start, blk, w);
    assert s.chain[..w] == Row(start, blk, w);
    assert s.chain[w..] == Tail(s);
  }

  lemma SamePool(s: State, s1: State)
    requires s1.start == s.start && s1.size == s.size && s1.blk == s.blk
    ensures Tail(s1) == Tail(s) && Slots(s1) == Slots(s)
  {
  }

  lemma AllocFirst(s: State)
    requires Inv(s) && s.avail > 0
    ensures var (s1, st, b) := Alloc(s);
      Inv(s1) && st == Success && b in Slots(s) && b !in s.live && s1.live == s.live + {b}
  {
    hide Tail, Slots, Slot;
    var (s1, st, b) := Alloc(s);
    SamePool(s, s1);
    var q, q1 := s.chain[..s.avail], s1.chain[..s1.avail];
    assert q == [b] + q1;
    assert s1.chain[s1.avail..] == s.chain[s.avail..];
    SetCons(b, q1);
    assert b in Set(q);
    assert NoDup(q1) && b !in q1 by { hide Set; DistinctCons(b, q1); }
    hide NoDup, Set;
    assert b !in Set(q1) by { InSet(b, q1); }
    assert Set(q1) + (s.live + {b}) == ({b} + Set(q1)) + s.live;
  }

  lemma SetCons(b: Addr, q: seq<Addr>)
    ensures Set([b] + q) == {b} + Set(q)
  {
  }

  lemma InSet(b: Addr, q: seq<Addr>)
    ensures b in Set(q) <==> b in q
  {
  }

  lemma DistinctCons(b: Addr, q: seq<Addr>)
    requires NoDup([b] + q)
    ensures NoDup(q) && b !in q
  {
    var r := [b] + q;
    assert forall i :: 0 <= i < |q| ==> q[i] == r[i + 1];
    assert r[0] == b;
  }

  /** A block handed out lies wholly in the pool, was nobody's and was not handed out
      twice; there is none exactly when every block is live. */
  lemma AllocIsSafe(s: State)
    requires Inv(s)
    ensures var (s1, st, b) := Alloc(s);
      && Inv(s1)
      && (st == NoMem <==> s.live == Slots(s))
      && (st == NoMem ==> s1 == s)
      && (st != NoMem ==> st == Success && Slot(s, b) && b !in s.live && s1.live == s.live + {b})
  {
    hide Tail, Slots, Slot;
    if s.avail > 0 {
      AllocFirst(s);
      SlotsAre(s, s.chain[0]);
    } else {
      assert s.chain[..s.avail] == [] && Set([]) == {};
      assert {} + s.live == s.live;
    }
  }

  lemma FreeIsSafe(s: State, b: Addr)
    requires Inv(s) && b in s.live
    ensures Inv(Free(s, b)) && Free(s, b).live == s.live - {b}
  {
    hide Tail, Slots;
    var s1 := Free(s, b);
    SamePool(s, s1);
    assert s1.chain[..s1.avail] == [b] + s.chain[..s.avail];
    assert Set(s1.chain[..s1.avail]) == {b} + Set(s.chain[..s.avail]);
  }

  /** The counter is the number of whole blocks minus the live ones. */
  lemma AvailIsExact(s: State)
    requires Inv(s)
    ensures s.avail + |s.live| == Whole(s.blk, s.size)
  {
    CardOfSet(s.chain[..s.avail]);
    RowDistinct(s.start, s.blk, Whole(s.blk, s.size));
    CardOfSet(Row(s.start, s.blk, Whole(s.blk, s.size)));
    assert |Set(s.chain[..s.avail]) + s.live| == |Set(s.chain[..s.avail])| + |s.live|;
  }

  /** Live blocks do not overlap. */
  lemma LiveApart(s: State, a: Addr, b: Addr)
    requires Inv(s) && a in s.live && b in s.live && a < b
    ensures Slot(s, a) && Slot(s, b) && a + s.blk <= b
  {
    SlotsAre(s, a);
    SlotsAre(s, b);
    hide Slots;
    if s.blk > 0 { Strided(s.blk, a - s.start, b - s.start); }
  }

  /** Handing a block straight back restores the pool. */
  lemma FreeUndoesAlloc(s: State)
    requires Inv(s) && Alloc(s).1 == Success
    ensures var (s1, _, b) := Alloc(s); Free(s1, b) == s
  {
    AllocIsSafe(s);
    var (s1, _, b) := Alloc(s);
    assert s.live + {b} - {b} == s.live;
  }

  // ---- whole runs ---------------------------------------------------------------------------------

  datatype Op = Get | Put(b: Addr)

  predicate Legal(s: State, op: Op) { op.Put? ==> op.b in s.live }

  function Apply(s: State, op: Op): State {
    match op
    case Get => Alloc(s).0
    case Put(b) => Free(s, b)
  }

  predicate LegalRun(s: State, ops: seq<Op>)
    decreases |ops|
  {
    ops == [] || (Legal(s, ops[0]) && LegalRun(Apply(s, ops[0]), ops[1..]))
  }

  function Run(s: State, ops: seq<Op>): State
    decreases |ops|
  {
    if ops == [] then s else Run(Apply(s, ops[0]), ops[1..])
  }

  lemma LiveAreSlots(s: State)
    requires Inv(s)
    ensures forall b :: b in s.live ==> Slot(s, b)
  {
    forall b | b in s.live ensures Slot(s, b) {
      SlotsAre(s, b);
      assert b in Slots(s);
    }
  }

  lemma ApplyIsSafe(s: State, op: Op)
    requires Inv(s) && Legal(s, op)
    ensures var s1 := Apply(s, op); Inv(s1) && s1.size == s.size && s1.blk == s.blk && s1.start == s.start
  {
    if op.Get? { AllocIsSafe(s); } else { FreeIsSafe(s, op.b); }
    hide Inv;
  }

  /** In every state of every run: live blocks are whole blocks of the pool and the
      counter is exact, so the partial block is never handed out. */
  lemma {:induction false} RunIsSafe(s: State, ops: seq<Op>)
    requires Inv(s) && LegalRun(s, ops)
    ensures var s1 := Run(s, ops);
      Inv(s1) && s1.size == s.size && s1.blk == s.blk && s1.start == s.start
      && s1.avail + |s1.live| == Whole(s.blk, s.size) && (forall b :: b in s1.live ==> Slot(s1, b))
    decreases |ops|
  {
    hide Inv, Slot, Slots, Alloc, Free;
    if ops == [] {
      AvailIsExact(s);
      LiveAreSlots(s);
    } else {
      ApplyIsSafe(s, ops[0]);
      RunIsSafe(Apply(s, ops[0]), ops[1..]);
    }
  }
}
