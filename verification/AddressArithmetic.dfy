/**
  ALIGN_UP as it is written: a 64-bit wrap-around addition and a bit mask.
*/
module AddressArithmetic {
  import opened Common

  function Pow2(n: nat): (p: nat)
    ensures p > 0
  {
    if n == 0 then 1 else 2 * Pow2(n - 1)
  }

  const WORD: nat := 64

  /** Bitwise and of the low `n` bits. */
  function And(x: nat, y: nat, n: nat): nat {
    if n == 0 then 0 else (x % 2) * (y % 2) + 2 * And(x / 2, y / 2, n - 1)
  }

  /** Bitwise complement of an `n`-bit word. */
  function Not(x: nat, n: nat): nat
    requires x < Pow2(n)
  {
    Pow2(n) - 1 - x
  }

  lemma {:induction false} Pow2Mono(a: nat, b: nat)
    requires a <= b
    ensures Pow2(a) <= Pow2(b)
    ensures Pow2(b) == Pow2(a) * Pow2(b - a)
    decreases b
  {
    if a < b {
      Pow2Mono(a, b - 1);
    }
  }

  lemma WordSize()
    ensures Pow2(WORD) == WORDS
  {
    assert Pow2(8) == 256;
    Pow2Mono(8, 16);
    Pow2Mono(16, 32);
    Pow2Mono(32, 64);
  }

  /** ((val) + (align) - 1) & ~((align) - 1) on `n`-bit unsigned words, for align = 2^k. */
  function AlignBits(val: nat, k: nat, n: nat): nat
    requires k <= n
  {
    Pow2Mono(k, n);
    And((val + Pow2(k) - 1) % Pow2(n), Not(Pow2(k) - 1, n), n)
  }

  /** ALIGN_UP on unsigned long. */
  function AlignUp(val: nat, k: nat): nat
    requires k <= WORD
  {
    AlignBits(val, k, WORD)
  }

  lemma {:induction false} AndOnes(x: nat, n: nat)
    requires x < Pow2(n)
    ensures And(x, Pow2(n) - 1, n) == x
  {
    if n > 0 {
      assert (Pow2(n) - 1) / 2 == Pow2(n - 1) - 1 && (Pow2(n) - 1) % 2 == 1;
      AndOnes(x / 2, n - 1);
    }
  }

  lemma ModTwice(x: nat, p: nat)
    requires p > 0
    ensures x % (2 * p) == x % 2 + 2 * ((x / 2) % p)
  {
    var q := x / 2 / p;
    var r := (x / 2) % p;
    assert x / 2 == q * p + r;
    assert x == (2 * p) * q + (2 * r + x % 2) by {
      assert 2 * (q * p) == (2 * p) * q;
    }
    Remainder(x, 2 * p, q, 2 * r + x % 2);
  }

  lemma MulGap(d: int, k: int)
    requires d > 0
    ensures k >= 1 ==> d * k >= d
    ensures k <= -1 ==> d * k <= -d
  {
  }

  lemma Remainder(x: int, d: int, q: int, r: int)
    requires 0 <= r < d && x == d * q + r
    ensures x % d == r && x / d == q
  {
    var k := q - x / d;
    assert d * k == d * q - d * (x / d);
    MulGap(d, k);
  }

  function Cleared(x: nat, a: nat): nat
    requires a > 0
  {
    x - x % a
  }

  lemma ClearedTwice(x: nat, p: nat)
    requires p > 0
    ensures Cleared(x, 2 * p) == 2 * Cleared(x / 2, p)
  {
    ModTwice(x, p);
  }

  lemma AndEven(x: nat, m: nat, n: nat)
    requires n > 0
    ensures And(x, 2 * m, n) == 2 * And(x / 2, m, n - 1)
  {
    assert (2 * m) % 2 == 0 && (2 * m) / 2 == m;
  }

  /** Masking with ~(2^k - 1) clears the remainder modulo 2^k. */
  lemma {:induction false} MaskClears(x: nat, k: nat, n: nat)
    requires k <= n && x < Pow2(n)
    ensures Pow2(k) <= Pow2(n)
    ensures And(x, Not(Pow2(k) - 1, n), n) == Cleared(x, Pow2(k))
    decreases k
  {
    Pow2Mono(k, n);
    if k == 0 {
      AndOnes(x, n);
    } else {
      MaskClears(x / 2, k - 1, n - 1);
      AndEven(x, Not(Pow2(k - 1) - 1, n - 1), n);
      ClearedTwice(x, Pow2(k - 1));
    }
  }

  lemma AlignBitsValue(v: nat, k: nat, n: nat)
    requires k <= n
    ensures AlignBits(v, k, n) == Cleared((v + Pow2(k) - 1) % Pow2(n), Pow2(k))
  {
    MaskClears((v + Pow2(k) - 1) % Pow2(n), k, n);
  }

  /** `r` is the least multiple of `a` that is at least `v`. */
  ghost predicate LeastMultiple(v: nat, a: nat, r: nat)
    requires a > 0
  {
    r % a == 0 && v <= r < v + a
  }

  lemma LeastIsLeast(v: nat, a: nat, r: nat, other: nat)
    requires a > 0 && LeastMultiple(v, a, r) && other % a == 0 && v <= other
    ensures r <= other
  {
    var k := r / a - other / a;
    assert a * k == a * (r / a) - a * (other / a) == r - other;
    MulGap(a, k);
  }

  lemma SubMod(x: int, a: int)
    requires a > 0
    ensures (x - x % a) % a == 0
  {
    Remainder(x - x % a, a, x / a, 0);
  }

  lemma RoundUp(v: nat, a: nat)
    requires a > 0
    ensures LeastMultiple(v, a, Cleared(v + a - 1, a))
  {
    SubMod(v + a - 1, a);
  }

  lemma Unwrapped(v: nat, a: nat, w: nat)
    requires 0 < a && v + a - 1 < w
    ensures (v + a - 1) % w == v + a - 1
  {
  }

  lemma Wrapped(v: nat, a: nat, w: nat)
    requires 0 < a <= w && v < w <= v + a - 1
    ensures Cleared((v + a - 1) % w, a) == 0
  {
    Remainder(v + a - 1, w, 1, v + a - 1 - w);
  }

  /**
    ALIGN_UP is the least multiple of 2^k at or above its argument exactly when the addition does
    not overflow; when it does, the result is 0.
  */
  lemma AlignUpExact(v: nat, k: nat, n: nat)
    requires v < Pow2(n) && k <= n
    ensures v + Pow2(k) - 1 < Pow2(n) <==> LeastMultiple(v, Pow2(k), AlignBits(v, k, n))
    ensures v + Pow2(k) - 1 >= Pow2(n) ==> AlignBits(v, k, n) == 0
  {
    var a, w := Pow2(k), Pow2(n);
    AlignBitsValue(v, k, n);
    if v + a - 1 < w {
      Unwrapped(v, a, w);
      RoundUp(v, a);
    } else {
      Wrapped(v, a, w);
    }
  }

  lemma LeastUnique(v: nat, a: nat, r: nat, q: nat)
    requires a > 0 && LeastMultiple(v, a, r) && LeastMultiple(v, a, q)
    ensures r == q
  {
    LeastIsLeast(v, a, r, q);
    LeastIsLeast(v, a, q, r);
  }

  /** The number of bytes that aligning skips at an offset into a page-aligned buffer. */
  function Gap(off: int): nat {
    (8 - off % 8) % 8
  }

  /** The aligned cursor as an offset; a cursor up to seven bytes below the buffer moves to its start. */
  function Aligned(off: int): nat
    requires off > -8
  {
    off + Gap(off)
  }

  lemma GapIsLeast(n: int)
    ensures (n + Gap(n)) % 8 == 0 && Gap(n) < 8
    ensures n % 8 == 0 <==> Gap(n) == 0
  {
  }

  lemma AlignedUnique(off: int, m: nat)
    requires m % 8 == 0 && off <= m < off + 8
    ensures Aligned(off) == m
  {
    if off < m {
      Remainder(off, 8, m / 8 - 1, 8 - (m - off));
    }
  }

  lemma PageIsEven(b: nat)
    requires b % PAGE_SIZE == 0
    ensures b % 8 == 0
  {
    assert b == 8 * (512 * (b / PAGE_SIZE));
  }

  lemma SumOfMultiples(a: nat, b: nat)
    requires a % 8 == 0 && b % 8 == 0
    ensures (a + b) % 8 == 0
  {
    Remainder(a + b, 8, a / 8 + b / 8, 0);
  }

  lemma AlignedLeast(b: nat, off: int)
    requires b % PAGE_SIZE == 0 && off > -8 && b + off >= 0
    ensures LeastMultiple(b + off, 8, b + Aligned(off))
  {
    PageIsEven(b);
    GapIsLeast(off);
    SumOfMultiples(b, Aligned(off));
  }

  /** ALIGN_UP on an address moves the offset into a page-aligned buffer to the next multiple of eight. */
  lemma AlignEight(b: nat, off: int)
    requires b % PAGE_SIZE == 0 && off > -8 && 0 <= b + off && b + off + 7 < Pow2(WORD)
    ensures AlignUp(b + off, 3) == b + Aligned(off)
  {
    assert Pow2(3) == 8;
    AlignUpExact(b + off, 3, WORD);
    AlignedLeast(b, off);
    LeastUnique(b + off, 8, AlignUp(b + off, 3), b + Aligned(off));
  }

  /** ALIGN_UP commutes with moving a buffer from one page-aligned base to another. */
  lemma AlignUpRelocates(b: nat, c: nat, off: nat)
    requires b % PAGE_SIZE == 0 && c % PAGE_SIZE == 0
    requires b + off + 7 < Pow2(WORD) && c + off + 7 < Pow2(WORD)
    ensures AlignUp(b + off, 3) - b == AlignUp(c + off, 3) - c
  {
    AlignEight(b, off);
    AlignEight(c, off);
  }
}
