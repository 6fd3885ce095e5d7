/** Shared vocabulary: an option type, powers of two and the few facts about
    Euclidean division that the index arithmetic of the model needs. */
module Common {

  datatype Option<+T> = None | Some(value: T)

  /** 2^k, what `1 << k` computes for small k. */
  function Pow2(k: nat): (r: nat)
    ensures r >= 1
  {
    if k == 0 then 1 else 2 * Pow2(k - 1)
  }

  predicate IsPowerOfTwo(n: nat)
    decreases n
  {
    n == 1 || (n >= 2 && n % 2 == 0 && IsPowerOfTwo(n / 2))
  }

  /** The sizes the in-place transform accepts: empty, or a power of two. */
  predicate ValidSize(n: nat)
  {
    n == 0 || IsPowerOfTwo(n)
  }

  function Log2(n: nat): (k: nat)
    requires IsPowerOfTwo(n)
    ensures Pow2(k) == n
    decreases n
  {
    if n == 1 then 0 else 1 + Log2(n / 2)
  }

  lemma {:induction false} Pow2IsPowerOfTwo(k: nat)
    ensures IsPowerOfTwo(Pow2(k))
  {
    if k > 0 {
      Pow2IsPowerOfTwo(k - 1);
      assert Pow2(k) / 2 == Pow2(k - 1);
    }
  }

  lemma {:induction false} Pow2Monotone(a: nat, b: nat)
    requires a <= b
    ensures Pow2(a) <= Pow2(b)
    decreases b
  {
    if a < b {
      Pow2Monotone(a, b - 1);
    }
  }

  /** Pow2 is strictly increasing, so it determines its exponent. */
  lemma Pow2Order(x: nat, y: nat)
    ensures x <= y ==> Pow2(x) <= Pow2(y)
    ensures x < y ==> 2 * Pow2(x) <= Pow2(y)
  {
    if x < y {
      Pow2Monotone(x + 1, y);
    } else if x == y {
    }
  }

  lemma Log2Unique(x: nat, n: nat)
    requires IsPowerOfTwo(n) && Pow2(x) == n
    ensures Log2(n) == x
  {
    Pow2Order(x, Log2(n));
    Pow2Order(Log2(n), x);
  }

  lemma {:induction false} Pow2Add(a: nat, b: nat)
    ensures Pow2(a + b) == Pow2(a) * Pow2(b)
    decreases b
  {
    if b > 0 {
      Pow2Add(a, b - 1);
      assert Pow2(a + b) == 2 * Pow2(a + b - 1);
    }
  }

  /** A smaller power of two divides a larger one. */
  lemma Pow2Divides(a: nat, b: nat)
    requires a <= b
    ensures Pow2(b) % Pow2(a) == 0
  {
    var k := b - a;
    Pow2Add(a, k);
    assert a + k == b;
    MultipleDivides(Pow2(a), Pow2(k));
  }

  lemma MultipleDivides(x: nat, y: nat)
    requires x > 0
    ensures (x * y) % x == 0
  {
    DivModUnique(x * y, x, y, 0);
  }

  /** A non-zero multiple of a positive d is at least d away from zero. */
  lemma MulAwayFromZero(t: int, d: int)
    requires d > 0
    ensures t >= 1 ==> t * d >= d
    ensures t <= -1 ==> t * d <= -d
  {
  }

  /** Euclidean division is determined by its defining equation. */
  lemma DivModUnique(x: int, d: int, q: int, r: int)
    requires d > 0 && 0 <= r < d && x == q * d + r
    ensures x / d == q && x % d == r
  {
    var q0, r0 := x / d, x % d;
    assert x == q0 * d + r0;
    assert (q - q0) * d == r0 - r;
    MulAwayFromZero(q - q0, d);
  }

  /** Splitting a block index: if i is a multiple of len and off < len then
      i + off sits at offset off of its block. */
  lemma ModOffset(i: nat, len: nat, off: nat)
    requires len > 0 && i % len == 0 && off < len
    ensures (i + off) % len == off && (i + off) - off == (i + off) / len * len
  {
    var q := i / len;
    assert i == q * len;
    DivModUnique(i + off, len, q, off);
  }

  /** Every index of an n-element array, n a multiple of len, lies in a block
      of len elements that ends within the array. */
  lemma BlockBound(p: nat, len: nat, n: nat)
    requires len > 0 && n % len == 0 && p < n
    ensures p % len <= p && p - p % len + len <= n && (p - p % len) % len == 0
  {
    var q, c, r := p / len, n / len, p % len;
    assert p == q * len + r;
    assert n == c * len;
    assert (c - q) * len > 0;
    MulAwayFromZero(c - q, len);
    assert c - q >= 1;
    assert (c - q - 1) * len >= 0;
    assert q * len + len <= n;
    MulAwayFromZero(q, len);
    DivModUnique(q * len, len, q, 0);
  }
}
