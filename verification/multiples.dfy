/** Multiples of a block size. */
module Multiples {
  lemma {:induction false} MulMod(i: nat, blk: nat)
    requires blk > 0
    ensures i * blk % blk == 0 && i * blk / blk == i
  {
    if i > 0 {
      MulMod(i - 1, blk);
      assert i * blk == (i - 1) * blk + blk;
      AddMod((i - 1) * blk, blk);
    }
  }

  lemma AddMod(x: nat, blk: nat)
    requires blk > 0
    ensures (x + blk) % blk == x % blk && (x + blk) / blk == x / blk + 1
  {
    var q, r := x / blk, x % blk;
    assert x + blk == (q + 1) * blk + r;
    DivUnique(x + blk, blk, q + 1, r);
  }

  lemma DivUnique(x: nat, blk: nat, q: nat, r: nat)
    requires blk > 0 && x == q * blk + r && r < blk
    ensures x / blk == q && x % blk == r
  {
    var q1 := x / blk;
    assert x == q1 * blk + x % blk;
    assert (q1 + 1) * blk == q1 * blk + blk && (q + 1) * blk == q * blk + blk;
    if q1 < q { MulMono(q1 + 1, q, blk); }
    if q < q1 { MulMono(q + 1, q1, blk); }
  }

  lemma {:induction false} MulMono(a: nat, b: nat, c: nat)
    requires a <= b
    ensures a * c <= b * c
  {
  }

  /** Two different multiples are at least one block apart. */
  lemma Strided(blk: nat, x: nat, y: nat)
    requires blk > 0 && x % blk == 0 && y % blk == 0 && x < y
    ensures x + blk <= y
  {
    var i, j := x / blk, y / blk;
    assert x == i * blk && y == j * blk;
    if i >= j { MulMono(j, i, blk); }
    MulMono(i + 1, j, blk);
    assert (i + 1) * blk == i * blk + blk;
  }
}
