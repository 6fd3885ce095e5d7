/** The bit-reversal permutation that opens the in-place radix-2 transform
    (`fft` in swift/Sources/YukinekoBenchmark/main.swift and cpp/QuantumLib.hpp).
    The source walks i upwards and keeps j equal to i with its k low bits
    reversed, updating j by a "reversed increment"; whenever i < j the two
    elements are swapped. */
module BitReversal {
  import opened Common

  /** i with its k low bits reversed: bit 0 of i becomes bit k-1. */
  function Rev(i: nat, k: nat): (r: nat)
    ensures r < Pow2(k)
  {
    if k == 0 then 0
    else (if i % 2 == 1 then Pow2(k - 1) else 0) + Rev(i / 2, k - 1)
  }

  /** The value the inner loop leaves in j when it starts with bit b: while
      bit b of j is set, clear it and move b one place down; then set bit b.
      With b a power of two (or 0), `(j & b) != 0` is `b != 0 && (j / b) % 2 == 1`,
      clearing a set bit is `j - b` and setting a clear bit is `j + b`. */
  function Advance(j: int, b: nat): int
    decreases b
  {
    if b != 0 && (j / b) % 2 == 1 then Advance(j - b, b / 2) else j + b
  }

  /** Starting below 2b, the loop leaves j below 2b: with n = 2b, `data[j]`
      is in bounds. */
  lemma {:induction false} AdvanceInRange(j: int, b: nat)
    requires 0 <= j < 2 * b
    ensures 0 <= Advance(j, b) < 2 * b
    decreases b
  {
    TopBit(j, b);
    if (j / b) % 2 == 1 {
      var lo, h := j - b, b / 2;
      if lo < 2 * h {
        AdvanceInRange(lo, h);
      } else if h > 0 {
        TopBit(lo, h);
      }
    }
  }

  /** Below 2b, bit b is set exactly from b upwards; at 2b it is clear. */
  lemma TopBit(j: int, b: nat)
    ensures b > 0 && 0 <= j < 2 * b ==> ((j / b) % 2 == 1 <==> j >= b)
    ensures b > 0 && j == 2 * b ==> (j / b) % 2 == 0
  {
    if b > 0 && 0 <= j < b {
      DivModUnique(j, b, 0, j);
    } else if b > 0 && b <= j < 2 * b {
      DivModUnique(j, b, 1, j - b);
    } else if b > 0 && j == 2 * b {
      DivModUnique(j, b, 2, 0);
    }
  }

  /** Bit b of j is clear: the loop stops at once and sets it. */
  lemma AdvanceClear(lo: nat, b: nat)
    requires 0 <= lo < b
    ensures Advance(lo, b) == lo + b
  {
    DivModUnique(lo, b, 0, lo);
  }

  /** Bit b of j is set: the loop clears it and moves to the next bit down. */
  lemma AdvanceSet(lo: nat, b: nat)
    requires 0 <= lo < b
    ensures Advance(b + lo, b) == Advance(lo, b / 2)
  {
    DivModUnique(b + lo, b, 1, lo);
  }

  /** The inner loop turns the reversal of i into the reversal of i + 1. */
  lemma {:induction false} ReversedIncrement(i: nat, k: nat)
    requires k >= 1 && i + 1 < Pow2(k)
    ensures Advance(Rev(i, k), Pow2(k - 1)) == Rev(i + 1, k)
  {
    var b := Pow2(k - 1);
    var lo := Rev(i / 2, k - 1);
    if i % 2 == 0 {
      assert (i + 1) % 2 == 1 && (i + 1) / 2 == i / 2;
      assert Rev(i + 1, k) == b + lo;
      assert Rev(i, k) == lo;
      AdvanceClear(lo, b);
    } else {
      assert (i + 1) % 2 == 0 && (i + 1) / 2 == i / 2 + 1;
      assert Rev(i + 1, k) == Rev(i / 2 + 1, k - 1);
      assert Rev(i, k) == b + lo;
      assert k >= 2;
      assert b / 2 == Pow2(k - 2);
      AdvanceSet(lo, b);
      ReversedIncrement(i / 2, k - 1);
    }
  }

  lemma {:induction false} RevZero(k: nat)
    ensures Rev(0, k) == 0
  {
    if k > 0 {
      RevZero(k - 1);
    }
  }

  /** Halving facts behind reading the reversal from its top bit. */
  lemma HalvingSplit(i: nat, q: nat)
    requires q >= 1
    ensures (i % (2 * q)) % 2 == i % 2
    ensures (i % (2 * q)) / 2 == (i / 2) % q
    ensures (i / 2) / q == i / (2 * q)
  {
    var a, r := i / (2 * q), i % (2 * q);
    assert i == a * (2 * q) + r;
    DivModUnique(i, 2, a * q + r / 2, r % 2);
    DivModUnique(i / 2, q, a, r / 2);
  }

  /** The reversal read from the top: the top bit of i becomes bit 0. */
  lemma {:induction false} RevTop(i: nat, k: nat)
    requires k >= 1 && i < Pow2(k)
    ensures Rev(i, k) == 2 * Rev(i % Pow2(k - 1), k - 1) + i / Pow2(k - 1)
  {
    if k == 1 {
      assert Rev(i, 1) == i;
    } else {
      var q := Pow2(k - 2);
      assert Pow2(k - 1) == 2 * q;
      HalvingSplit(i, q);
      RevTop(i / 2, k - 1);
    }
  }

  /** Reversing twice gives the index back. */
  lemma {:induction false} RevInvolution(i: nat, k: nat)
    requires i < Pow2(k)
    ensures Rev(Rev(i, k), k) == i
  {
    if k > 0 {
      var b := Pow2(k - 1);
      var lo := Rev(i / 2, k - 1);
      var bit := if i % 2 == 1 then 1 else 0;
      assert Rev(i, k) == bit * b + lo;
      RevTop(Rev(i, k), k);
      DivModUnique(Rev(i, k), b, bit, lo);
      RevInvolution(i / 2, k - 1);
    }
  }

  lemma RevInvolutionAll(k: nat)
    ensures forall p :: 0 <= p < Pow2(k) ==> Rev(Rev(p, k), k) == p
  {
    forall p | 0 <= p < Pow2(k) ensures Rev(Rev(p, k), k) == p {
      RevInvolution(p, k);
    }
  }

  /** The specification of the pass: element p of the result is element
      Rev(p) of the input. */
  function BitReversed<T>(s: seq<T>): (r: seq<T>)
    requires ValidSize(|s|)
    ensures |r| == |s|
  {
    if |s| == 0 then []
    else
      var k := Log2(|s|);
      seq(|s|, p requires 0 <= p < |s| => s[Rev(p, k)])
  }

  /** Bit reversal leaves arrays of fewer than two elements alone. */
  lemma BitReversedSmall<T>(s: seq<T>)
    requires |s| <= 1
    ensures BitReversed(s) == s
  {
    if |s| == 1 {
      assert Log2(1) == 0;
    }
  }

  /** Running the pass twice restores the array. */
  lemma BitReversedInvolution<T>(s: seq<T>)
    requires ValidSize(|s|)
    ensures BitReversed(BitReversed(s)) == s
  {
    if |s| > 0 {
      var k := Log2(|s|);
      RevInvolutionAll(k);
    }
  }

  /** After the outer loop has handled indices 1 .. i-1, position p holds its
      final element when p or its reversal is below i, and its own element
      otherwise. */
  ghost predicate PartlyReversed<T>(t: seq<T>, s: seq<T>, i: nat, k: nat)
    requires |t| == |s| == Pow2(k)
  {
    forall p :: 0 <= p < |s| ==>
      t[p] == s[if p < i || Rev(p, k) < i then Rev(p, k) else p]
  }

  lemma PartlyReversedStart<T>(s: seq<T>, k: nat)
    requires |s| == Pow2(k)
    ensures PartlyReversed(s, s, 1, k)
  {
    RevInvolutionAll(k);
    RevZero(k);
  }

  lemma PartlyReversedDone<T>(t: seq<T>, s: seq<T>)
    requires |t| == |s| && IsPowerOfTwo(|s|)
    requires PartlyReversed(t, s, |s|, Log2(|s|))
    ensures t == BitReversed(s)
  {
  }

  /** One outer iteration: swapping i with its reversal j when i < j extends
      the finished part by one index. */
  lemma SwapStep<T>(t: seq<T>, s: seq<T>, i: nat, k: nat)
    requires |t| == |s| == Pow2(k) && i < |s|
    requires PartlyReversed(t, s, i, k)
    ensures var j := Rev(i, k);
      PartlyReversed(if i < j then t[i := t[j]][j := t[i]] else t, s, i + 1, k)
  {
    var j := Rev(i, k);
    RevInvolutionAll(k);
    var t' := if i < j then t[i := t[j]][j := t[i]] else t;
    forall p | 0 <= p < |s|
      ensures t'[p] == s[if p < i + 1 || Rev(p, k) < i + 1 then Rev(p, k) else p]
    {
      if p == i || p == j {
      } else {
        assert Rev(p, k) != i;
      }
    }
  }

  /** The inner loop of the pass, `for (; j & bit; bit >>= 1) j ^= bit; j ^= bit;`. */
  method NextReversed(j0: int, bit0: nat) returns (j: int)
    ensures j == Advance(j0, bit0)
  {
    j := j0;
    var bit := bit0;
    while bit != 0 && (j / bit) % 2 == 1
      invariant Advance(j, bit) == Advance(j0, bit0)
      decreases bit
    {
      j := j - bit;
      bit := bit / 2;
    }
    j := j + bit;
  }

  lemma SwapSlices<T>(before: seq<T>, after: seq<T>, n: nat, i: nat, j: nat)
    requires i < n && j < n && n <= |before|
    requires after == before[i := before[j]][j := before[i]]
    ensures after[..n] == before[..n][i := before[j]][j := before[i]]
    ensures after[n..] == before[n..]
  {
  }

  /** `swap(data[i], data[j])`. */
  method Swap<T>(a: array<T>, i: nat, j: nat)
    requires i < a.Length && j < a.Length
    modifies a
    ensures a[..] == old(a[..])[i := old(a[j])][j := old(a[i])]
    ensures multiset(a[..]) == multiset(old(a[..]))
  {
    a[i], a[j] := a[j], a[i];
  }

  /** `if (i < j) std::swap(data[i], data[j])` for the i-th outer iteration,
      j being the reversal of i. */
  method SwapIfBelow<T>(a: array<T>, n: nat, i: nat, j: nat, ghost s: seq<T>, ghost k: nat)
    requires n <= a.Length && |s| == n == Pow2(k) && i < n && j == Rev(i, k)
    requires PartlyReversed(a[..n], s, i, k)
    modifies a
    ensures PartlyReversed(a[..n], s, i + 1, k)
    ensures a[n..] == old(a[n..])
    ensures multiset(a[..]) == multiset(old(a[..]))
  {
    SwapStep(a[..n], s, i, k);
    if i < j {
      ghost var before := a[..];
      Swap(a, i, j);
      SwapSlices(before, a[..], n, i, j);
    }
  }

  /** The bit-reversal loop over the first n elements of a, in place. */
  method BitReversePermute<T>(a: array<T>, n: nat)
    requires n <= a.Length && ValidSize(n)
    modifies a
    ensures a[..n] == BitReversed(old(a[..n]))
    ensures a[n..] == old(a[n..])
    ensures multiset(a[..]) == multiset(old(a[..]))
  {
    ghost var s := a[..n];
    if n <= 1 {
      BitReversedSmall(s);
      return;
    }
    ghost var k := Log2(n);
    PartlyReversedStart(s, k);
    RevZero(k);
    assert k >= 1 && n / 2 == Pow2(k - 1);
    var j := 0;
    var i := 1;
    while i < n
      invariant 1 <= i <= n
      invariant j == Rev(i - 1, k)
      invariant PartlyReversed(a[..n], s, i, k)
      invariant a[n..] == old(a[n..])
      invariant multiset(a[..]) == multiset(old(a[..]))
    {
      ReversedIncrement(i - 1, k);
      j := NextReversed(j, n / 2);
      SwapIfBelow(a, n, i, j, s, k);
      i := i + 1;
    }
    PartlyReversedDone(a[..n], s);
  }
}
