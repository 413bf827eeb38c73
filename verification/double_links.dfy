/** Doubly linked lists in memory: nodes are addresses, and the links of a list's nodes
    spell out the sequence of its nodes. */
module DoubleLinks {
  import opened Lists

  type Addr = nat

  function Without(q: seq<Addr>, b: Addr): seq<Addr> {
    if q == [] then [] else if q[0] == b then q[1..] else [q[0]] + Without(q[1..], b)
  }

  lemma {:induction false} WithoutIs(q: seq<Addr>, b: Addr)
    requires NoDup(q)
    ensures NoDup(Without(q, b))
    ensures forall x :: x in Without(q, b) <==> x in q && x != b
  {
    if q != [] {
      var t := q[1..];
      assert forall i, j :: 0 <= i < j < |t| ==> t[i] == q[i + 1] && t[j] == q[j + 1];
      assert q == [q[0]] + t;
      assert q[0] !in t;
      WithoutIs(t, b);
    }
  }

  /** The pointers of a list node; 0 is NULL. */
  datatype Link = Link(prev: Addr, next: Addr)

  type Links = map<Addr, Link>

  const NULL: Addr := 0

  function L(k: Links, x: Addr): Link { if x in k then k[x] else Link(NULL, NULL) }

  function First(q: seq<Addr>): Addr { if q == [] then NULL else q[0] }

  function At(q: seq<Addr>, i: int): Addr { if 0 <= i < |q| then q[i] else NULL }

  /** The links of q's members spell out q. */
  ghost predicate Spells(k: Links, q: seq<Addr>) {
    forall i {:trigger q[i]} :: 0 <= i < |q| ==> q[i] != NULL && L(k, q[i]) == Link(At(q, i - 1), At(q, i + 1))
  }

  function SetPrev(k: Links, x: Addr, p: Addr): Links { k[x := L(k, x).(prev := p)] }
  function SetNext(k: Links, x: Addr, n: Addr): Links { k[x := L(k, x).(next := n)] }

  /** Put x in front of the node head. */
  function Push(k: Links, x: Addr, head: Addr): Links {
    var k1 := k[x := Link(NULL, head)];
    if head != NULL then SetPrev(k1, head, x) else k1
  }

  /** Link x's neighbours to each other and clear x's own pointers. */
  function Unlink(k: Links, x: Addr): Links {
    var n, p := L(k, x).next, L(k, x).prev;
    var k1 := if n != NULL then SetPrev(k, n, p) else k;
    var k2 := if p != NULL then SetNext(k1, p, L(k1, x).next) else k1;
    k2[x := Link(NULL, NULL)]
  }

  lemma PushSpells(k: Links, q: seq<Addr>, x: Addr)
    requires Spells(k, q) && NoDup(q) && x !in q && x != NULL
    ensures Spells(Push(k, x, First(q)), [x] + q)
  {
    var k1, q1 := Push(k, x, First(q)), [x] + q;
    forall i | 0 <= i < |q1| ensures q1[i] != NULL && L(k1, q1[i]) == Link(At(q1, i - 1), At(q1, i + 1)) {
      if i > 0 { assert q1[i] == q[i - 1] && L(k, q[i - 1]) == Link(At(q, i - 2), At(q, i)); }
    }
  }

  lemma {:induction false} WithoutAt(q: seq<Addr>, i: nat)
    requires i < |q| && NoDup(q)
    ensures Without(q, q[i]) == q[..i] + q[i + 1..]
  {
    if i > 0 {
      var t := q[1..];
      assert NoDup(t) by { assert forall a, b :: 0 <= a < b < |t| ==> t[a] == q[a + 1] && t[b] == q[b + 1]; }
      WithoutAt(t, i - 1);
      assert t[..i - 1] == q[1..i] && t[i..] == q[i + 1..];
    }
  }

  lemma UnlinkWrites(k: Links, x: Addr, y: Addr)
    requires y != x && y != NULL && L(k, x).next != x && L(k, x).prev != x
    ensures var n, p := L(k, x).next, L(k, x).prev;
      L(Unlink(k, x), y) == Link(if y == n then p else L(k, y).prev, if y == p then n else L(k, y).next)
  {
  }

  lemma UnlinkSpells(k: Links, q: seq<Addr>, i: nat)
    requires Spells(k, q) && NoDup(q) && i < |q|
    ensures Spells(Unlink(k, q[i]), Without(q, q[i]))
  {
    var k1, q1 := Unlink(k, q[i]), q[..i] + q[i + 1..];
    WithoutAt(q, i);
    hide Unlink, L, Without, At;
    forall j | 0 <= j < |q1| ensures q1[j] != NULL && L(k1, q1[j]) == Link(At(q1, j - 1), At(q1, j + 1)) {
      UnlinkOne(k, q, i, j);
    }
  }

  lemma UnlinkOne(k: Links, q: seq<Addr>, i: nat, j: nat)
    requires Spells(k, q) && NoDup(q) && i < |q| && j < |q| - 1
    ensures var q1 := q[..i] + q[i + 1..]; q1[j] != NULL && L(Unlink(k, q[i]), q1[j]) == Link(At(q1, j - 1), At(q1, j + 1))
  {
    hide Unlink, L;
    var o := if j < i then j else j + 1;
    assert L(k, q[i]) == Link(At(q, i - 1), At(q, i + 1)) && L(k, q[o]) == Link(At(q, o - 1), At(q, o + 1));
    UnlinkWrites(k, q[i], q[o]);
    AtWithout(q, i, j);
  }

  lemma AtWithout(q: seq<Addr>, i: nat, j: nat)
    requires i < |q| && j < |q| - 1
    ensures var q1, o := q[..i] + q[i + 1..], if j < i then j else j + 1;
      && At(q1, j - 1) == (if o - 1 == i then At(q, i - 1) else At(q, o - 1))
      && At(q1, j + 1) == (if o + 1 == i then At(q, i + 1) else At(q, o + 1))
  {
  }

  /** What unlinking reads off the list. */
  lemma UnlinkReads(k: Links, q: seq<Addr>, i: nat)
    requires Spells(k, q) && NoDup(q) && i < |q|
    ensures L(k, q[i]) == Link(At(q, i - 1), At(q, i + 1))
    ensures First(Without(q, q[i])) == if i == 0 then At(q, 1) else First(q)
  {
    WithoutAt(q, i);
  }

  /** Only the list's own members and x are written. */
  lemma SpellsElsewhere(k: Links, k1: Links, q: seq<Addr>)
    requires Spells(k, q) && forall y :: y in q ==> L(k1, y) == L(k, y)
    ensures Spells(k1, q)
  {
  }
}
