/** The children of a cJSON item as a doubly linked list that is changed in place. */
module JsonLists {
  import opened Lists
  import opened DoubleLinks

  function Insert(q: seq<Addr>, i: nat, x: Addr): seq<Addr>
    requires i <= |q|
  {
    q[..i] + [x] + q[i..]
  }

  // ---- pointer writes and sequences -------------------------------------------------------

  /** x in front of q[i]. */
  function InsertLinks(k: Links, q: seq<Addr>, i: nat, x: Addr): Links
    requires i < |q|
  {
    var k1 := SetPrev(k[x := Link(L(k, q[i]).prev, q[i])], q[i], x);
    if i == 0 then k1 else SetNext(k1, q[i - 1], x)
  }

  lemma InsertSpells(k: Links, q: seq<Addr>, i: nat, x: Addr)
    requires Spells(k, q) && NoDup(q) && x !in q && x != NULL && i < |q|
    ensures Spells(InsertLinks(k, q, i, x), Insert(q, i, x)) && NoDup(Insert(q, i, x))
  {
    hide InsertLinks, L, At;
    InsertNoDup(q, i, x);
    hide NoDup, Insert;
    forall j | 0 <= j < |Insert(q, i, x)| ensures LinkOk(InsertLinks(k, q, i, x), Insert(q, i, x), j) {
      InsertOne(k, q, i, x, j) by { InsertLength(q, i, x); }
    }
    AllLinksOk(InsertLinks(k, q, i, x), Insert(q, i, x));
  }

  predicate LinkOk(k: Links, q: seq<Addr>, j: nat) {
    j < |q| ==> q[j] != NULL && L(k, q[j]) == Link(At(q, j - 1), At(q, j + 1))
  }

  lemma AllLinksOk(k: Links, q: seq<Addr>)
    requires forall j :: 0 <= j < |q| ==> LinkOk(k, q, j)
    ensures Spells(k, q)
  {
    hide At, L;
    forall j | 0 <= j < |q| ensures q[j] != NULL && L(k, q[j]) == Link(At(q, j - 1), At(q, j + 1)) { assert LinkOk(k, q, j); }
  }

  lemma LinkAt(k: Links, q: seq<Addr>, j: nat)
    requires Spells(k, q) && j < |q|
    ensures q[j] != NULL && L(k, q[j]) == Link(At(q, j - 1), At(q, j + 1))
  {
    hide At, L;
  }

  lemma InsertLength(q: seq<Addr>, i: nat, x: Addr)
    requires i <= |q|
    ensures |Insert(q, i, x)| == |q| + 1
  {
  }

  lemma InsertNoDup(q: seq<Addr>, i: nat, x: Addr)
    requires NoDup(q) && x !in q && i <= |q|
    ensures NoDup(Insert(q, i, x))
  {
    var q1 := Insert(q, i, x);
    forall a, b | 0 <= a < b < |q1| ensures q1[a] != q1[b] {
      InsertAt(q, i, x, a);
      InsertAt(q, i, x, b);
    }
  }

  lemma InsertAt(q: seq<Addr>, i: nat, x: Addr, j: nat)
    requires i <= |q| && j <= |q|
    ensures Insert(q, i, x)[j] == if j < i then q[j] else if j == i then x else q[j - 1]
  {
  }

  /** Neighbours in the longer sequence. */
  lemma InsertNeighbours(q: seq<Addr>, i: nat, x: Addr, j: nat)
    requires i < |q| && j <= |q|
    ensures var q1, o := Insert(q, i, x), if j < i then j else j - 1;
      && At(q1, j - 1) == (if j == i + 1 then x else if j <= i then At(q, j - 1) else At(q, o - 1))
      && At(q1, j + 1) == (if j + 1 == i then x else if j == i then q[i] else At(q, o + 1))
  {
  }

  lemma Apart(q: seq<Addr>, a: nat, b: nat)
    requires NoDup(q) && a < |q| && b < |q|
    ensures q[a] == q[b] <==> a == b
  {
  }

  lemma InsertWrites(k: Links, q: seq<Addr>, i: nat, x: Addr, y: Addr)
    requires NoDup(q) && x !in q && i < |q|
    ensures y == x ==> L(InsertLinks(k, q, i, x), y) == Link(L(k, q[i]).prev, q[i])
    ensures y != x ==> L(InsertLinks(k, q, i, x), y) == Link(if y == q[i] then x else L(k, y).prev, if i > 0 && y == q[i - 1] then x else L(k, y).next)
  {
  }

  lemma InsertOne(k: Links, q: seq<Addr>, i: nat, x: Addr, j: nat)
    requires Spells(k, q) && NoDup(q) && x !in q && x != NULL && i < |q| && j <= |q|
    ensures LinkOk(InsertLinks(k, q, i, x), Insert(q, i, x), j)
  {
    hide InsertLinks, L, At, Insert;
    InsertLength(q, i, x);
    InsertAt(q, i, x, j);
    InsertNeighbours(q, i, x, j);
    InsertWrites(k, q, i, x, Insert(q, i, x)[j]);
    LinkAt(k, q, i);
    if j != i {
      var o := if j < i then j else j - 1;
      LinkAt(k, q, o);
      Apart(q, i, o);
      if i > 0 { Apart(q, i - 1, o); }
      assert q[o] != x;
    }
    hide Spells, NoDup;
  }

  /** x behind the last node. */
  lemma AppendSpells(k: Links, q: seq<Addr>, x: Addr)
    requires Spells(k, q) && NoDup(q) && x !in q && x != NULL && L(k, x).next == NULL && q != []
    ensures Spells(SetPrev(SetNext(k, q[|q| - 1], x), x, q[|q| - 1]), q + [x]) && NoDup(q + [x])
  {
    var k1, q1 := SetPrev(SetNext(k, q[|q| - 1], x), x, q[|q| - 1]), q + [x];
    forall j | 0 <= j < |q1| ensures q1[j] != NULL && L(k1, q1[j]) == Link(At(q1, j - 1), At(q1, j + 1)) {
      if j < |q| { assert q1[j] == q[j] && L(k, q[j]) == Link(At(q, j - 1), At(q, j + 1)); }
    }
  }

  /** x in the place of q[i]. */
  function ReplaceLinks(k: Links, q: seq<Addr>, i: nat, x: Addr): Links
    requires i < |q|
  {
    var k1 := k[x := L(k, q[i])];
    var k2 := if i + 1 < |q| then SetPrev(k1, q[i + 1], x) else k1;
    var k3 := if i > 0 then SetNext(k2, q[i - 1], x) else k2;
    k3[q[i] := Link(NULL, NULL)]
  }

  lemma ReplaceSpells(k: Links, q: seq<Addr>, i: nat, x: Addr)
    requires Spells(k, q) && NoDup(q) && x !in q && x != NULL && i < |q|
    ensures Spells(ReplaceLinks(k, q, i, x), q[i := x]) && NoDup(q[i := x])
  {
    hide ReplaceLinks, L, At;
    var k1, q1 := ReplaceLinks(k, q, i, x), q[i := x];
    forall j | 0 <= j < |q1| ensures LinkOk(k1, q1, j) { ReplaceOne(k, q, i, x, j); }
    AllLinksOk(k1, q1);
  }

  lemma ReplaceWrites(k: Links, q: seq<Addr>, i: nat, x: Addr, y: Addr)
    requires NoDup(q) && x !in q && i < |q| && y != q[i]
    ensures y == x ==> L(ReplaceLinks(k, q, i, x), y) == L(k, q[i])
    ensures y != x ==> L(ReplaceLinks(k, q, i, x), y).prev == if i + 1 < |q| && y == q[i + 1] then x else L(k, y).prev
    ensures y != x ==> L(ReplaceLinks(k, q, i, x), y).next == if i > 0 && y == q[i - 1] then x else L(k, y).next
  {
  }

  lemma ReplaceNeighbours(q: seq<Addr>, i: nat, x: Addr, j: nat)
    requires i < |q| && j < |q|
    ensures var q1 := q[i := x];
      && At(q1, j - 1) == (if j == i + 1 then x else At(q, j - 1))
      && At(q1, j + 1) == (if j + 1 == i then x else At(q, j + 1))
  {
  }

  lemma ReplaceOne(k: Links, q: seq<Addr>, i: nat, x: Addr, j: nat)
    requires Spells(k, q) && NoDup(q) && x !in q && x != NULL && i < |q| && j < |q|
    ensures LinkOk(ReplaceLinks(k, q, i, x), q[i := x], j)
  {
    hide ReplaceLinks, L, At;
    ReplaceNeighbours(q, i, x, j);
    LinkAt(k, q, i);
    LinkAt(k, q, j);
    Apart(q, i, j);
    if i > 0 { Apart(q, i - 1, j); }
    if i + 1 < |q| { Apart(q, i + 1, j); }
    assert q[i] != x && q[j] != x;
    ReplaceWrites(k, q, i, x, q[i := x][j]);
    hide Spells, NoDup;
  }

  lemma NonNull(k: Links, q: seq<Addr>)
    requires Spells(k, q)
    ensures forall i {:trigger q[i]} :: 0 <= i < |q| ==> q[i] != NULL
  {
  }

  class Children {
    var child: Addr
    var links: Links
    /** The children in order. */
    ghost var nodes: seq<Addr>

    ghost predicate Valid()
      reads this
    {
      Spells(links, nodes) && NoDup(nodes) && child == First(nodes)
    }

    constructor ()
      ensures Valid() && nodes == []
    {
      child, links, nodes := NULL, map[], [];
    }

    /** `get_array_item` */
    method GetArrayItem(index: nat) returns (x: Addr)
      requires Valid()
      ensures x == At(nodes, index)
    {
      NonNull(links, nodes);
      ghost var i := 0;
      x := child;
      var left := index;
      while x != NULL && left > 0
        invariant 0 <= i <= |nodes| && i + left == index && x == At(nodes, i)
        decreases left
      {
        assert L(links, nodes[i]) == Link(At(nodes, i - 1), At(nodes, i + 1));
        left := left - 1;
        x := L(links, x).next;
        i := i + 1;
      }
    }

    /** `cJSON_DetachItemViaPointer` */
    method DetachItem(item: Addr)
      requires Valid() && item in nodes
      modifies this
      ensures Valid() && nodes == Without(old(nodes), item) && L(links, item) == Link(NULL, NULL)
    {
      ghost var i: nat :| i < |nodes| && nodes[i] == item;
      UnlinkReads(links, nodes, i);
      UnlinkSpells(links, nodes, i);
      WithoutIs(nodes, item);
      ghost var k := links;
      NonNull(links, nodes);
      var prev, next := L(links, item).prev, L(links, item).next;
      if prev != NULL { links := SetNext(links, prev, next); }
      if next != NULL { links := SetPrev(links, next, prev); }
      if item == child { child := next; }
      links := links[item := Link(NULL, NULL)];
      UnlinkEither(k, item, prev, next);
      nodes := Without(nodes, item);
    }

    /** `cJSON_AddItemToArray` of a detached item. */
    method AddItem(item: Addr)
      requires Valid() && item != NULL && item !in nodes && L(links, item) == Link(NULL, NULL)
      modifies this
      ensures Valid() && nodes == old(nodes) + [item]
    {
      NonNull(links, nodes);
      if child == NULL {
        child := item;
        links := links[item := Link(NULL, NULL)];
        nodes := [item];
        return;
      }
      ghost var i := 0;
      var c := child;
      while L(links, c).next != NULL
        invariant 0 <= i < |nodes| && c == nodes[i]
        decreases |nodes| - i
      {
        assert L(links, nodes[i]) == Link(At(nodes, i - 1), At(nodes, i + 1));
        c := L(links, c).next;
        i := i + 1;
      }
      assert L(links, nodes[i]) == Link(At(nodes, i - 1), At(nodes, i + 1));
      AppendSpells(links, nodes, item);
      links := SetNext(links, c, item);
      links := SetPrev(links, item, c);
      nodes := nodes + [item];
    }

    /** `cJSON_InsertItemInArray`: at the end if there is no such number. */
    method InsertItem(which: nat, item: Addr)
      requires Valid() && item != NULL && item !in nodes && L(links, item) == Link(NULL, NULL)
      modifies this
      ensures Valid() && nodes == Insert(old(nodes), if which <= |old(nodes)| then which else |old(nodes)|, item)
    {
      NonNull(links, nodes);
      var after := GetArrayItem(which);
      if after == NULL {
        AddItem(item);
        return;
      }
      InsertSpells(links, nodes, which, item);
      assert L(links, nodes[which]) == Link(At(nodes, which - 1), At(nodes, which + 1));
      links := links[item := Link(L(links, after).prev, after)];
      links := SetPrev(links, after, item);
      if after == child {
        child := item;
      } else {
        links := SetNext(links, L(links, item).prev, item);
      }
      nodes := Insert(nodes, which, item);
    }

    /** `cJSON_ReplaceItemViaPointer` */
    method ReplaceItem(item: Addr, replacement: Addr)
      requires Valid() && item in nodes && replacement != NULL && (replacement == item || replacement !in nodes)
      modifies this
      ensures Valid() && |nodes| == |old(nodes)|
      ensures forall i :: 0 <= i < |nodes| ==> nodes[i] == if old(nodes)[i] == item then replacement else old(nodes)[i]
    {
      if replacement == item { return; }
      ghost var i: nat :| i < |nodes| && nodes[i] == item;
      ghost var k := links;
      ReplaceSpells(links, nodes, i, replacement);
      UnlinkReads(links, nodes, i);
      NonNull(links, nodes);
      links := links[replacement := L(links, item)];
      if L(links, replacement).next != NULL { links := SetPrev(links, L(links, replacement).next, replacement); }
      if L(links, replacement).prev != NULL { links := SetNext(links, L(links, replacement).prev, replacement); }
      if child == item { child := replacement; }
      links := links[item := Link(NULL, NULL)];
      nodes := nodes[i := replacement];
    }
  }

  /** The order in which the neighbours are written does not matter. */
  lemma UnlinkEither(k: Links, x: Addr, p: Addr, n: Addr)
    requires L(k, x) == Link(p, n) && p != x && n != x && (p == n ==> p == NULL)
    ensures var k1 := if p != NULL then SetNext(k, p, n) else k;
      var k2 := if n != NULL then SetPrev(k1, n, p) else k1;
      k2[x := Link(NULL, NULL)] == Unlink(k, x)
  {
  }

  /** Detaching undoes adding. */
  lemma {:induction false} DetachUndoesAdd(q: seq<Addr>, x: Addr)
    requires x !in q
    ensures Without(q + [x], x) == q
  {
    if q == [] {
      assert (q + [x])[1..] == [];
    } else {
      DetachUndoesAdd(q[1..], x);
      assert (q + [x])[1..] == q[1..] + [x];
    }
  }
}
