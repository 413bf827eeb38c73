/** The free lists as they lie in memory: doubly linked through the free buffers. */
module HeapLinks {
  import opened Lists
  import opened HeapLevels
  import opened HeapTiling
  import opened HeapState
  import opened HeapIndex
  import opened DoubleLinks

  /** The neighbours whose links are written, as the specification names them. */
  lemma LinkedIs(q: seq<Addr>, i: nat)
    requires NoDup(q) && i < |q|
    ensures Linked(q, q[i]) == (if i > 0 then {q[i - 1]} else {}) + (if i + 1 < |q| then {q[i + 1]} else {})
  {
  }

  // ---- all levels -----------------------------------------------------------------------

  function HeadOf(heads: map<int, Addr>, l: int): Addr { if l in heads then heads[l] else NULL }

  ghost predicate ListIn(h: Heap, heads: map<int, Addr>, k: Links, l: int) {
    HeadOf(heads, l) == First(List(h, l)) && Spells(k, List(h, l))
  }

  /** The links in memory are those of the lists. */
  ghost predicate Coupled(h: Heap, heads: map<int, Addr>, k: Links) {
    forall l {:trigger ListIn(h, heads, k, l)} :: ListIn(h, heads, k, l)
  }

  /** No block is on two lists. */
  lemma OneList(h: Heap, skip: set<Addr>, l1: int, l2: int, x: Addr)
    requires IndexOk(h, skip) && x in List(h, l1) && x in List(h, l2)
    ensures l1 == l2
  {
    assert LevelOk(h, l1, skip) && LevelOk(h, l2, skip);
    assert FreeAt(h.blks, l1, x) && FreeAt(h.blks, l2, x);
  }

  lemma InsertCoupled(h: Heap, heads: map<int, Addr>, k: Links, b: Addr, skip: set<Addr>)
    requires IndexOk(h, skip) && b in skip && b != NULL && Coupled(h, heads, k) && LevelOf(h, b) >= 0
    ensures var l := LevelOf(h, b); Coupled(Insert(h, b), heads[l := b], Push(k, b, HeadOf(heads, l)))
  {
    var l := LevelOf(h, b);
    var h1, heads1, k1 := Insert(h, b), heads[l := b], Push(k, b, HeadOf(heads, l));
    assert LevelOk(h, l, skip) && ListIn(h, heads, k, l);
    forall j ensures ListIn(h1, heads1, k1, j) {
      assert LevelOk(h, j, skip) && ListIn(h, heads, k, j);
      if j == l {
        PushSpells(k, List(h, l), b);
      } else {
        assert List(h1, j) == List(h, j);
        forall y | y in List(h, j) ensures L(k1, y) == L(k, y) {
          if y in List(h, l) { OneList(h, skip, j, l, y); }
        }
        SpellsElsewhere(k, k1, List(h, j));
      }
    }
  }

  lemma DeleteCoupled(h: Heap, heads: map<int, Addr>, k: Links, b: Addr, skip: set<Addr>)
    requires IndexOk(h, skip) && Coupled(h, heads, k) && LevelOf(h, b) >= 0 && b in List(h, LevelOf(h, b))
    ensures var l := LevelOf(h, b); Coupled(Delete(h, b), heads[l := if HeadOf(heads, l) == b then L(k, b).next else HeadOf(heads, l)], Unlink(k, b))
  {
    var l := LevelOf(h, b);
    var q := List(h, l);
    var h1, heads1, k1 := Delete(h, b), heads[l := if HeadOf(heads, l) == b then L(k, b).next else HeadOf(heads, l)], Unlink(k, b);
    assert LevelOk(h, l, skip) && ListIn(h, heads, k, l);
    var i :| 0 <= i < |q| && q[i] == b;
    UnlinkReads(k, q, i);
    forall j ensures ListIn(h1, heads1, k1, j) {
      assert LevelOk(h, j, skip) && ListIn(h, heads, k, j);
      if j == l {
        UnlinkSpells(k, q, i);
      } else {
        assert List(h1, j) == List(h, j);
        forall y | y in List(h, j) ensures L(k1, y) == L(k, y) {
          if y in q { OneList(h, skip, j, l, y); }
        }
        SpellsElsewhere(k, k1, List(h, j));
      }
    }
  }

  /** Lists that did not change are still spelled. */
  lemma SameLists(h: Heap, h1: Heap, heads: map<int, Addr>, k: Links)
    requires Coupled(h, heads, k) && h1.lists == h.lists
    ensures Coupled(h1, heads, k)
  {
    forall l ensures ListIn(h1, heads, k, l) { assert ListIn(h, heads, k, l) && List(h1, l) == List(h, l); }
  }
}
