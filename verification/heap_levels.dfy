/** Levels of the segregated free lists: powers of two and bit lengths. */
module HeapLevels {
  // Default configuration of a 32-bit target (kernel/rhino/include/k_default_config.h).
  const ALIGN: nat := 8
  const MIN_BIT: nat := 6
  const MAX_BIT: nat := 20
  const MIN_SIZE: nat := 32
  const LEVELS: nat := MAX_BIT - MIN_BIT + 2
  /** Size of a block header, and of the two free-list pointers at the start of a free buffer. */
  const HEAD: nat := 8
  const PTRS: nat := 8
  /** size_t is 32 bits wide. */
  const SIZE_SPAN: nat := 0x1_0000_0000

  /** `32 - krhino_clz32(n)`. */
  function BitLen(n: nat): (c: nat)
    ensures n > 0 <==> c > 0
  {
    if n == 0 then 0 else 1 + BitLen(n / 2)
  }

  function Pow2(n: nat): (p: nat)
    ensures p >= 1
  {
    if n == 0 then 1 else 2 * Pow2(n - 1)
  }

  /** A positive number lies between the powers of two its bit length names. */
  lemma {:induction false} BitLenBounds(n: nat)
    requires n > 0
    ensures Pow2(BitLen(n) - 1) <= n < Pow2(BitLen(n))
  {
    if n > 1 { BitLenBounds(n / 2); }
  }

  lemma {:induction false} Pow2Mono(a: nat, b: nat)
    requires a <= b
    ensures Pow2(a) <= Pow2(b)
    decreases b
  {
    if a < b { Pow2Mono(a, b - 1); }
  }

  /** `size_to_level`: the free list for buffers of this size, or -1. */
  function Level(size: nat): (l: int)
    ensures -1 <= l < LEVELS
  {
    var cnt := BitLen(size);
    if cnt < MIN_BIT then 0
    else if cnt > MAX_BIT then -1
    else cnt - MIN_BIT
  }

  /** What the levels are: level 0 holds everything below 2^MIN_BIT, level n >= 1
      the sizes from 2^(n+MIN_BIT-1) up to 2^(n+MIN_BIT), and sizes from
      2^MAX_BIT on have no level. */
  lemma LevelRange(size: nat, n: nat)
    requires 1 <= n <= MAX_BIT - MIN_BIT
    ensures Level(size) == -1 <==> size >= Pow2(MAX_BIT)
    ensures Level(size) == 0 <==> size < Pow2(MIN_BIT)
    ensures Level(size) == n <==> Pow2(n + MIN_BIT - 1) <= size < Pow2(n + MIN_BIT)
  {
    if size > 0 { BitLenBounds(size); }
    var c := BitLen(size);
    forall a: nat | c <= a ensures size < Pow2(a) { Pow2Mono(c, a); }
    forall a: nat | a < c ensures Pow2(a) <= size { Pow2Mono(a, c - 1); }
  }

  /** A buffer on a higher level is larger. */
  lemma LevelLess(small: nat, large: nat)
    requires 0 <= Level(small) < Level(large)
    ensures small < large
  {
    hide Pow2, BitLen;
    var m, n := Level(small), Level(large);
    assert 1 <= n < LEVELS;
    LevelRange(large, n);
    if m == 0 {
      LevelRange(small, 1);
      Pow2Mono(MIN_BIT, n + MIN_BIT - 1);
    } else {
      LevelRange(small, m);
      Pow2Mono(m + MIN_BIT, n + MIN_BIT - 1);
    }
  }

  /** A size with a level fits every larger level; sizes without one are larger than all with. */
  lemma LevelFits(small: nat, large: nat)
    requires small <= large && Level(large) >= 0
    ensures 0 <= Level(small) <= Level(large)
  {
    LevelRange(small, 1);
    LevelRange(large, 1);
    if Level(small) > Level(large) { LevelLess(large, small); }
  }

  /** MM_ALIGN_UP in size_t arithmetic. */
  function AlignUp(size: nat): (a: nat)
    ensures a % ALIGN == 0 && a < SIZE_SPAN
    ensures size <= SIZE_SPAN - ALIGN ==> size <= a < size + ALIGN
  {
    (size + ALIGN - 1) % SIZE_SPAN / ALIGN * ALIGN
  }

  /** The buffer size `k_mm_alloc` looks for. */
  function Needed(size: nat): (n: nat)
    ensures n % ALIGN == 0 && n >= MIN_SIZE
    ensures size <= SIZE_SPAN - ALIGN ==> size <= n
  {
    if AlignUp(size) < MIN_SIZE then MIN_SIZE else AlignUp(size)
  }
}
