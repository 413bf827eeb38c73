/** Bit operations on numbers, bit by bit, and the arithmetic they come to. */
module BitOps {
  function Or(a: nat, b: nat): nat {
    if a == 0 && b == 0 then 0 else (if a % 2 == 1 || b % 2 == 1 then 1 else 0) + 2 * Or(a / 2, b / 2)
  }

  function And(a: nat, b: nat): nat {
    if a == 0 || b == 0 then 0 else (if a % 2 == 1 && b % 2 == 1 then 1 else 0) + 2 * And(a / 2, b / 2)
  }

  /** a shifted left by k bits. */
  function Shl(a: nat, k: nat): (r: nat)
    ensures r >= a
  {
    if k == 0 then a else 2 * Shl(a, k - 1)
  }

  lemma {:induction false} OrZero(a: nat)
    ensures Or(a, 0) == a && Or(0, a) == a
  {
    if a > 0 { OrZero(a / 2); }
  }

  /** A disjunction with a number whose lowest k bits are clear leaves the lowest k bits. */
  lemma {:induction false} OrHigh(q: nat, r: nat, b: nat, k: nat)
    requires r < Shl(1, k)
    ensures Or(Shl(q, k) + r, Shl(b, k)) == Shl(Or(q, b), k) + r
  {
    if k > 0 {
      OrHigh(q, r / 2, b, k - 1);
      var a, x := Shl(q, k) + r, Shl(b, k - 1);
      assert a / 2 == Shl(q, k - 1) + r / 2 && a % 2 == r % 2;
      assert 2 * x / 2 == x && 2 * x % 2 == 0;
    }
  }

  lemma AndZero(a: nat)
    ensures And(a, 0) == 0
  {
  }

  /** Adding a number to one whose lowest bits are clear. */
  lemma {:induction false} OrLow(q: nat, b: nat, k: nat)
    requires b < Shl(1, k)
    ensures Or(Shl(q, k), b) == Shl(q, k) + b
  {
    if k == 0 {
      OrZero(q);
    } else {
      OrLow(q, b / 2, k - 1);
      assert Shl(q, k) / 2 == Shl(q, k - 1) && Shl(q, k) % 2 == 0;
    }
  }

  /** A mask m over clear bits, and one over k bits that are all set. */
  lemma {:induction false} AndMasks(q: nat, r: nat, m: nat, k: nat)
    requires r < Shl(1, k)
    ensures And(Shl(q, k) + r, Shl(m, k)) == Shl(And(q, m), k)
    ensures And(Shl(q, k) + r, Shl(m, k) + Shl(1, k) - 1) == Shl(And(q, m), k) + r
  {
    hide And;
    if k > 0 {
      AndMasks(q, r / 2, m, k - 1);
      var a, x, y := Shl(q, k) + r, Shl(m, k - 1), Shl(m, k - 1) + Shl(1, k - 1) - 1;
      assert a / 2 == Shl(q, k - 1) + r / 2 && a % 2 == r % 2;
      assert 2 * x / 2 == x && 2 * x % 2 == 0;
      assert (2 * y + 1) / 2 == y && (2 * y + 1) % 2 == 1;
      AndOdd(a, y);
      AndEven(a, x);
    }
  }

  lemma AndOdd(a: nat, y: nat)
    ensures And(a, 2 * y + 1) == a % 2 + 2 * And(a / 2, y)
  {
  }

  lemma AndEven(a: nat, x: nat)
    ensures And(a, 2 * x) == 2 * And(a / 2, x)
  {
  }

  lemma ShlIs(a: nat)
    ensures Shl(a, 4) == 16 * a && Shl(a, 5) == 32 * a && Shl(a, 3) == 8 * a && Shl(a, 6) == 64 * a
    ensures Shl(a, 7) == 128 * a && Shl(a, 8) == 256 * a && Shl(a, 10) == 1024 * a && Shl(a, 16) == 65536 * a
  {
    assert Shl(a, 0) == a;
    assert Shl(a, 1) == 2 * a;
    assert Shl(a, 2) == 4 * a;
    assert Shl(a, 9) == 2 * Shl(a, 8);
    assert Shl(a, 11) == 2 * Shl(a, 10) && Shl(a, 12) == 2 * Shl(a, 11) && Shl(a, 13) == 2 * Shl(a, 12);
    assert Shl(a, 14) == 2 * Shl(a, 13) && Shl(a, 15) == 2 * Shl(a, 14);
  }
}
