/** The pool of fixed-size blocks in memory, chained through the blocks' first words. */
module MblkImpl {
  import opened Lists
  import opened MblkPool
  import opened Multiples

  const NULL: Addr := 0

  function At(words: map<Addr, Addr>, b: Addr): Addr { if b in words then words[b] else NULL }

  function First(q: seq<Addr>): Addr { if q == [] then NULL else q[0] }

  function Next(q: seq<Addr>, i: nat): Addr { if i + 1 < |q| then q[i + 1] else NULL }

  /** The words of q's members from lo up to hi lead from each to the next, the last one to null. */
  ghost predicate Spells(words: map<Addr, Addr>, q: seq<Addr>, hi: nat) {
    forall i {:trigger q[i]} :: 0 <= i < |q| && i < hi ==> q[i] != NULL && At(words, q[i]) == Next(q, i)
  }

  /** When the initialisation loop goes on, and what it has counted at its end. */
  lemma LoopCount(blk: nat, size: nat, k: nat)
    requires (blk > 0 || size == 0) && k < Links(blk, size)
    ensures (k + 1) * blk < size <==> k + 1 < Links(blk, size)
    ensures k + 1 == Links(blk, size) ==> Whole(blk, size) == if (k + 1) * blk == size then k + 1 else k
  {
    if blk == 0 { return; }
    var w := size / blk;
    assert w * blk <= size < w * blk + blk;
    if k + 1 < w {
      MulMono(k + 2, w, blk);
      assert (k + 2) * blk == (k + 1) * blk + blk;
    } else if k + 1 == w {
    } else {
      assert k == w;
      assert (k + 1) * blk == w * blk + blk;
    }
  }

  lemma RowApart(start: Addr, blk: nat, n: nat)
    requires (blk > 0 || n <= 1) && start != NULL
    ensures NoDup(Row(start, blk, n)) && forall i :: 0 <= i < n ==> Row(start, blk, n)[i] != NULL
  {
    RowDistinct(start, blk, n);
  }

  /** A live block is nowhere in the chain. */
  lemma NotInChain(s: State, b: Addr)
    requires Inv(s) && b in s.live
    ensures b !in s.chain
  {
    SlotsAre(s, b);
    assert b in Slots(s);
    assert s.chain == s.chain[..s.avail] + Tail(s);
    assert b !in Set(s.chain[..s.avail]);
    if s.blk > 0 { assert s.size < s.size / s.blk * s.blk + s.blk; }
  }

  /** One more word written. */
  lemma SpellOn(words: map<Addr, Addr>, q: seq<Addr>, k: nat)
    requires Spells(words, q, k) && k < |q| && NoDup(q) && q[k] != NULL
    ensures Spells(words[q[k] := Next(q, k)], q, k + 1)
  {
  }

  lemma SpellNothing(words: map<Addr, Addr>, q: seq<Addr>)
    ensures Spells(words, q, 0)
  {
  }

  lemma SpellFirst(words: map<Addr, Addr>, q: seq<Addr>)
    requires Spells(words, q, |q|) && q != []
    ensures At(words, q[0]) == First(q[1..]) && Spells(words, q[1..], |q| - 1)
  {
    assert forall i {:trigger q[1..][i]} :: 0 <= i < |q| - 1 ==> q[1..][i] == q[i + 1] && Next(q[1..], i) == Next(q, i + 1);
  }

  lemma FirstPushed(b: Addr, q: seq<Addr>)
    ensures First([b] + q) == b
  {
  }

  lemma FirstIs(q: seq<Addr>)
    requires q != []
    ensures First(q) == q[0]
  {
  }

  lemma SpellPush(words: map<Addr, Addr>, q: seq<Addr>, b: Addr)
    requires Spells(words, q, |q|) && b !in q && b != NULL
    ensures Spells(words[b := First(q)], [b] + q, |q| + 1)
  {
    hide At;
    var r, w := [b] + q, words[b := First(q)];
    forall i {:trigger r[i]} | 0 <= i < |r| ensures r[i] != NULL && At(w, r[i]) == Next(r, i) {
      if i == 0 {
        AtPut(words, b, First(q), b);
        assert |q| > 0 ==> r[1] == q[0];
      } else {
        assert r[i] == q[i - 1] && (i < |q| ==> r[i + 1] == q[i]);
        AtPut(words, b, First(q), q[i - 1]);
      }
    }
  }

  lemma AtPut(words: map<Addr, Addr>, b: Addr, v: Addr, x: Addr)
    ensures At(words[b := v], x) == if x == b then v else At(words, x)
  {
  }

  class Pool {
    var start: Addr
    var end: Addr
    var blkSize: nat
    var blkAvail: nat
    var blkWhole: nat
    var availList: Addr
    /** First word of each block. */
    var words: map<Addr, Addr>
    ghost var chain: seq<Addr>
    ghost var live: set<Addr>

    ghost function S(): State
      reads this
    {
      State(start, if start <= end then end - start else 0, blkSize, chain, blkAvail, live)
    }

    /** The words in memory are those of the chain; words of live blocks may be anything. */
    ghost predicate Valid()
      reads this
    {
      0 < start <= end && Inv(S()) && Spells(words, chain, |chain|) && availList == First(chain)
    }

    /** `krhino_mblk_pool_init` of parameters for which its loop ends, by
        `MblkPool.LoopEnds`; on error nothing is written. */
    method Init(start: Addr, blk: nat, size: nat) returns (st: Status)
      requires start != NULL && start + size < SIZE_SPAN && blk < SIZE_SPAN
      requires Check(start, blk, size) == Success ==> Ends(start, blk, size)
      modifies this
      ensures st == Check(start, blk, size)
      ensures st == Success ==> Valid() && S() == MblkPool.Init(start, blk, size) && blkWhole == Whole(blk, size)
      ensures st != Success ==> unchanged(this)
    {
      if size < 2 * blk % SIZE_SPAN { return PoolSizeErr; }
      if start % WORD > 0 { return InvAlign; }
      if blk % WORD > 0 { return InvAlign; }
      if size % WORD > 0 { return InvAlign; }
      Build(start, blk, size);
      st := Success;
    }

    /** The pool is chained and set up. */
    method Build(start: Addr, blk: nat, size: nat)
      requires start != NULL && start + size < SIZE_SPAN && blk < SIZE_SPAN && Ends(start, blk, size)
      modifies this
      ensures Valid() && S() == MblkPool.Init(start, blk, size) && blkWhole == Whole(blk, size)
    {
      hide Row, Inv, NoDup, Links, Whole, Spells;
      var blks := ChainBlocks(start, blk, size);
      this.start, this.end := start, start + size;
      blkWhole, blkAvail, blkSize := blks, blks, blk;
      availList := start;
      chain := Row(start, blk, Links(blk, size));
      live := {};
      InitInv(start, blk, size);
      LinksPositive(blk, size);
      RowAt(start, blk, Links(blk, size), 0);
    }

    /** The loop that threads the chain; the count of whole blocks. */
    method ChainBlocks(start: Addr, blk: nat, size: nat) returns (blks: nat)
      requires start != NULL && start + size < SIZE_SPAN && blk < SIZE_SPAN && Ends(start, blk, size)
      modifies `words
      ensures var q := Row(start, blk, Links(blk, size)); Spells(words, q, |q|)
      ensures blks == Whole(blk, size)
    {
      hide Row, Links, Whole, NoDup, Spells, Ends;
      ghost var n := Links(blk, size);
      ghost var q := Row(start, blk, n);
      LinksPositive(blk, size);
      EndsPositive(start, blk, size);
      RowApart(start, blk, n);
      RowAt(start, blk, n, 0);
      var poolEnd, cur, next := (start + size) % SIZE_SPAN, start, (start + blk) % SIZE_SPAN;
      blks := 0;
      NoWrap(start, blk, size, 0);
      LoopCount(blk, size, 0);
      assert Spells(words, q, 0) by { SpellNothing(words, q); }
      while next < poolEnd
        invariant blks < n && cur == q[blks] == start + blks * blk && next == cur + blk
        invariant next < poolEnd <==> blks + 1 < n
        invariant Spells(words, q, blks)
        decreases n - blks
      {
        RowAt(start, blk, n, blks + 1);
        assert (blks + 1) * blk == blks * blk + blk;
        SpellOn(words, q, blks);
        blks := blks + 1;
        words := words[cur := next];
        cur := next;
        next := (cur + blk) % SIZE_SPAN;
        LoopCount(blk, size, blks);
        NoWrap(start, blk, size, blks);
        assert (blks + 1) * blk == blks * blk + blk;
      }
      LoopCount(blk, size, blks);
      assert (blks + 1) * blk == blks * blk + blk;
      SpellOn(words, q, blks);
      words := words[cur := NULL];
      if next == poolEnd { blks := blks + 1; }
    }

    /** `krhino_mblk_alloc` */
    method Alloc() returns (st: Status, b: Addr)
      requires Valid()
      modifies this
      ensures Valid() && (S(), st, b) == MblkPool.Alloc(old(S()))
    {
      hide Inv, Spells, Slot, Slots, First, At;
      AllocIsSafe(S());
      if blkAvail > 0 {
        AvailInChain(S());
        SpellFirst(words, chain);
        FirstIs(chain);
        b := availList;
        availList := At(words, b);
        blkAvail := blkAvail - 1;
        live := live + {b};
        chain := chain[1..];
        st := Success;
      } else {
        b := NULL;
        st := NoMem;
      }
    }

    /** `krhino_mblk_free` of a live block. */
    method Free(b: Addr)
      requires Valid() && b in live
      modifies this
      ensures Valid() && S() == MblkPool.Free(old(S()), b)
    {
      hide Inv, Spells, At, First;
      FreeIsSafe(S(), b);
      NotInChain(S(), b);
      LiveNotNull(S(), b);
      SpellPush(words, chain, b);
      FirstPushed(b, chain);
      words := words[b := availList];
      availList := b;
      blkAvail := blkAvail + 1;
      chain := [b] + chain;
      live := live - {b};
    }
  }

  lemma LinksPositive(blk: nat, size: nat)
    ensures Links(blk, size) > 0
    ensures blk == 0 ==> Links(blk, size) == 1
  {
    if blk > 0 && size > 0 && size % blk == 0 { assert size / blk * blk == size; }
  }

  lemma EndsPositive(start: Addr, blk: nat, size: nat)
    requires Ends(start, blk, size)
    ensures blk > 0 || size == 0
  {
  }

  lemma NoWrap(start: Addr, blk: nat, size: nat, k: nat)
    requires Ends(start, blk, size) && start < SIZE_SPAN && k < Links(blk, size)
    ensures start + (k + 1) * blk < SIZE_SPAN && (k + 1) * blk == k * blk + blk && (blk > 0 || size == 0)
  {
    hide Links;
    MulMono(k + 1, Links(blk, size), blk);
  }

  lemma RowAt(start: Addr, blk: nat, n: nat, i: nat)
    requires i < n
    ensures Row(start, blk, n)[i] == start + i * blk
  {
  }

  lemma AvailInChain(s: State)
    requires Inv(s) && s.avail > 0
    ensures s.chain != []
  {
  }

  lemma LiveNotNull(s: State, b: Addr)
    requires Inv(s) && b in s.live && s.start > 0
    ensures b > 0
  {
    SlotsAre(s, b);
  }
}
