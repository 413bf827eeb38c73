/** A value that may be missing. */
module Options {
  datatype Option<+T> = None | Some(value: T)
}

/** Sequences without repetition, used for every intrusive `klist_t` of the kernel. */
module Lists {

  ghost predicate NoDup<T>(q: seq<T>) {
    forall i, j :: 0 <= i < j < |q| ==> q[i] != q[j]
  }

  lemma NoDupTail<T(!new)>(q: seq<T>)
    requires q != []
    ensures NoDup(q) <==> NoDup(q[1..]) && q[0] !in q[1..]
  {
    if NoDup(q[1..]) && q[0] !in q[1..] {
      forall i, j | 0 <= i < j < |q| ensures q[i] != q[j] {
        assert q[j] == q[1..][j - 1];
        if i > 0 { assert q[i] == q[1..][i - 1]; }
      }
    }
  }

  /** `klist_rm`: the list without the node of x. */
  function Remove<T(==,!new)>(q: seq<T>, x: T): (r: seq<T>)
    ensures forall y :: y in r <==> y in q && y != x
    ensures NoDup(q) ==> NoDup(r)
    ensures |r| <= |q|
    ensures x !in q ==> r == q
    ensures x in q ==> |r| < |q|
    ensures q != [] && q[0] != x ==> r != [] && r[0] == q[0]
  {
    if q == [] then []
    else if q[0] == x then
      var r := Remove(q[1..], x);
      assert q == [q[0]] + q[1..];
      NoDupTail(q);
      r
    else
      var r := Remove(q[1..], x);
      assert q == [q[0]] + q[1..];
      NoDupTail(q); NoDupTail([q[0]] + r); assert ([q[0]] + r)[1..] == r;
      [q[0]] + r
  }

  /** Removing the head of a list without repetition leaves the tail. */
  lemma RemoveHead<T(!new)>(q: seq<T>)
    requires q != [] && NoDup(q)
    ensures Remove(q, q[0]) == q[1..]
  {
    assert q[0] !in q[1..];
  }
}
