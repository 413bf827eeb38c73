/** The search through levels and bitmap, against a scan of all blocks. */
module HeapSearch {
  import opened Options
  import opened HeapLevels
  import opened HeapTiling
  import opened HeapState
  import opened DoubleLinks
  import opened HeapIndex

  lemma {:induction false} FirstBitIs(bits: set<int>, l: nat)
    requires l <= LEVELS
    ensures var k := FirstBit(bits, l); l <= k <= LEVELS && (k < LEVELS ==> k in bits) && forall j :: l <= j < k ==> j !in bits
    decreases LEVELS - l
  {
    if l < LEVELS && l !in bits { FirstBitIs(bits, l + 1); }
  }

  lemma {:induction false} FirstFitIs(m: Blocks, q: seq<Addr>, size: nat)
    ensures match FirstFit(m, q, size)
      case Some(b) => b in q && H(m, b).size >= size
      case None => forall x :: x in q ==> H(m, x).size < size
  {
    if q != [] && H(m, q[0]).size < size {
      FirstFitIs(m, q[1..], size);
      assert q == [q[0]] + q[1..];
    }
  }

  /** A free block that can serve a request of this buffer size through the lists. */
  predicate Serves(m: Blocks, x: Addr, size: nat) {
    x in m && m[x].free && size <= m[x].size < Pow2(MAX_BIT)
  }

  lemma ServesLevel(m: Blocks, x: Addr, size: nat)
    requires Level(size) >= 0
    ensures Serves(m, x, size) <==> x in m && m[x].free && m[x].size >= size && Level(m[x].size) >= Level(size)
  {
    if x in m {
      LevelRange(m[x].size, 1);
      if m[x].size >= size && Level(m[x].size) >= 0 { LevelFits(size, m[x].size); }
    }
  }

  lemma UpFinds(h: Heap, size: nat)
    requires IndexOk(h, {}) && Level(size) >= 0
    ensures match FindUp(h, Level(size))
      case Some(b) => Serves(h.blks, b, size)
      case None => forall x :: Serves(h.blks, x, size) ==> Level(H(h.blks, x).size) == Level(size)
  {
    var l := Level(size);
    var k := FirstBit(h.bits, l + 1);
    FirstBitIs(h.bits, l + 1);
    if k < LEVELS {
      assert LevelOk(h, k, {});
      var b := List(h, k)[0];
      assert FreeAt(h.blks, k, b);
      LevelLess(size, h.blks[b].size);
      ServesLevel(h.blks, b, size);
    } else {
      forall x | Serves(h.blks, x, size) ensures Level(H(h.blks, x).size) == l {
        var j := Level(h.blks[x].size);
        ServesLevel(h.blks, x, size);
        assert LevelOk(h, j, {});
        assert FreeAt(h.blks, j, x);
      }
    }
  }

  lemma SameFinds(h: Heap, size: nat)
    requires IndexOk(h, {}) && Level(size) >= 0
    ensures match FirstFit(h.blks, List(h, Level(size)), size)
      case Some(b) => Serves(h.blks, b, size)
      case None => forall x :: Serves(h.blks, x, size) ==> Level(H(h.blks, x).size) != Level(size)
  {
    var l := Level(size);
    FirstFitIs(h.blks, List(h, l), size);
    assert LevelOk(h, l, {});
    forall x ensures Serves(h.blks, x, size) && Level(H(h.blks, x).size) == l <==> x in List(h, l) && H(h.blks, x).size >= size {
      ServesLevel(h.blks, x, size);
      assert x in List(h, l) <==> FreeAt(h.blks, l, x);
    }
  }

  /** In both search orders: what is found serves the request, and nothing is found
      only if no block does. */
  lemma SearchIsExact(h: Heap, size: nat, quick: bool)
    requires IndexOk(h, {}) && Level(size) >= 0
    ensures match Search(h, size, quick)
      case Some(b) => Serves(h.blks, b, size)
      case None => forall x :: !Serves(h.blks, x, size)
  {
    UpFinds(h, size);
    SameFinds(h, size);
  }

  /** What is found on a higher level is on the least that has a block. */
  lemma UpIsLeast(h: Heap, size: nat, x: Addr)
    requires IndexOk(h, {}) && Level(size) >= 0 && FindUp(h, Level(size)).Some?
    requires Serves(h.blks, x, size) && Level(h.blks[x].size) > Level(size)
    ensures var b := FindUp(h, Level(size)).value; b in h.blks && Level(size) < Level(h.blks[b].size) <= Level(h.blks[x].size)
  {
    hide Level, Pow2, FirstBit;
    var l := Level(size);
    var k := FirstBit(h.bits, l + 1);
    FirstBitIs(h.bits, l + 1);
    assert LevelOk(h, k, {});
    assert FreeAt(h.blks, k, List(h, k)[0]);
    var j := Level(h.blks[x].size);
    assert LevelOk(h, j, {});
    assert FreeAt(h.blks, j, x);
  }

  /** What is found is on the least level of all the blocks that serve; with
      RHINO_CONFIG_MM_QUICK, of those above the level of the request, if there are any. */
  lemma SearchIsTight(h: Heap, size: nat, quick: bool, x: Addr)
    requires IndexOk(h, {}) && Level(size) >= 0 && Serves(h.blks, x, size) && (quick ==> Level(h.blks[x].size) > Level(size))
    ensures Search(h, size, quick).Some?
    ensures var b := Search(h, size, quick).value; b in h.blks && Level(h.blks[b].size) <= Level(h.blks[x].size)
    ensures quick ==> Level(h.blks[Search(h, size, quick).value].size) > Level(size)
  {
    hide Pow2, Level, Serves, FirstBit;
    SearchIsExact(h, size, quick);
    UpFinds(h, size);
    SameFinds(h, size);
    ServesLevel(h.blks, x, size);
    SameLevel(h, size);
    if Level(h.blks[x].size) > Level(size) && FindUp(h, Level(size)).Some? { UpIsLeast(h, size, x); }
  }

  lemma SameLevel(h: Heap, size: nat)
    requires IndexOk(h, {}) && Level(size) >= 0
    ensures var b := FirstFit(h.blks, List(h, Level(size)), size);
      b.Some? ==> b.value in h.blks && Level(h.blks[b.value].size) == Level(size)
  {
    var l := Level(size);
    FirstFitIs(h.blks, List(h, l), size);
    assert LevelOk(h, l, {});
    if FirstFit(h.blks, List(h, l), size).Some? { assert FreeAt(h.blks, l, FirstFit(h.blks, List(h, l), size).value); }
  }

  /** A block that serves a request has a level no smaller than the request's. */
  lemma ServedHasLevel(m: Blocks, x: Addr, size: nat)
    requires Serves(m, x, size)
    ensures Level(size) >= 0
  {
    LevelRange(m[x].size, 1);
    LevelFits(size, m[x].size);
  }
}
