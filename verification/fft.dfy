/** The in-place radix-2 Cooley-Tukey transform (`fft`) and the FFT load
    generator built on it (`performFFTLoad`, `performFFTWithSize`).
    Only the index machinery is modelled: the element type is a type
    parameter, and the complex arithmetic (twiddle factors, the butterfly
    products, the final division by n) is an abstract parameter. */
module Fft {
  import opened Common
  import opened BitReversal
  import opened LoadLevel

  /** The arithmetic the transform leaves abstract. `butterfly(u, v, len, k, inverse)`
      is the pair (u + v*w, u - v*w) where w is the running twiddle factor at
      position k of a block of a stage of length len (the source computes w
      by k successive products with the stage root, the same for every block);
      `scale(x, n)` is x divided by n. */
  datatype Arithmetic<!T> = Arithmetic(
    butterfly: (T, T, nat, nat, bool) -> (T, T),
    scale: (T, nat) -> T)

  /** Element p after the stage of length len: the lower half of each block
      receives the first component of its butterfly, the upper half the second. */
  function StageAt<T>(s: seq<T>, len: nat, ar: Arithmetic<T>, inverse: bool, p: nat): T
    requires len >= 2 && len % 2 == 0 && |s| % len == 0 && p < |s|
  {
    var h := len / 2;
    var off := p % len;
    BlockBound(p, len, |s|);
    if off < h then ar.butterfly(s[p], s[p + h], len, off, inverse).0
    else ar.butterfly(s[p - h], s[p], len, off - h, inverse).1
  }

  function Stage<T>(s: seq<T>, len: nat, ar: Arithmetic<T>, inverse: bool): (r: seq<T>)
    requires len >= 2 && len % 2 == 0 && |s| % len == 0
    ensures |r| == |s|
  {
    seq(|s|, p requires 0 <= p < |s| => StageAt(s, len, ar, inverse, p))
  }

  /** A power of two no larger than another divides it. */
  lemma PowerOfTwoDivides(len: nat, n: nat)
    requires IsPowerOfTwo(len) && IsPowerOfTwo(n) && len <= n
    ensures n % len == 0
  {
    var a, b := Log2(len), Log2(n);
    Pow2Order(b, a);
    Pow2Divides(a, b);
  }

  /** The stages of lengths len, 2*len, ..., n applied in turn. */
  function Butterflied<T>(s: seq<T>, len: nat, ar: Arithmetic<T>, inverse: bool): (r: seq<T>)
    requires IsPowerOfTwo(|s|) && IsPowerOfTwo(len) && len >= 2
    ensures |r| == |s|
    decreases if len <= |s| then |s| + 1 - len else 0
  {
    if len > |s| then s
    else
      PowerOfTwoDivides(len, |s|);
      Butterflied(Stage(s, len, ar, inverse), 2 * len, ar, inverse)
  }

  /** Positions lo .. hi-1 of t already hold their values after the stage. */
  ghost predicate StageDone<T>(t: seq<T>, pre: seq<T>, len: nat, ar: Arithmetic<T>, inverse: bool, lo: nat, hi: nat)
    requires len >= 2 && len % 2 == 0 && |pre| % len == 0 && |t| == |pre| && hi <= |pre|
  {
    forall p :: lo <= p < hi ==> t[p] == StageAt(pre, len, ar, inverse, p)
  }

  /** Positions lo .. hi-1 of t are still as before the stage. */
  ghost predicate Untouched<T>(t: seq<T>, pre: seq<T>, lo: nat, hi: nat)
    requires |t| == |pre| && hi <= |pre|
  {
    forall p :: lo <= p < hi ==> t[p] == pre[p]
  }

  /** While the block at i is half done: positions below i + k and the
      first k of its upper half hold their stage values, the rest is as before. */
  ghost predicate BlockInv<T>(t: seq<T>, pre: seq<T>, len: nat, ar: Arithmetic<T>, inverse: bool, i: nat, k: nat)
    requires len >= 2 && len % 2 == 0 && |pre| % len == 0 && |t| == |pre|
    requires i + len <= |pre| && k <= len / 2
  {
    StageDone(t, pre, len, ar, inverse, 0, i + k)
    && Untouched(t, pre, i + k, i + len / 2)
    && StageDone(t, pre, len, ar, inverse, i + len / 2, i + len / 2 + k)
    && Untouched(t, pre, i + len / 2 + k, |pre|)
  }

  /** One butterfly of the block at i extends the finished positions by one
      in each half. */
  lemma BlockStep<T>(t: seq<T>, pre: seq<T>, len: nat, ar: Arithmetic<T>, inverse: bool, i: nat, k: nat)
    requires len >= 2 && len % 2 == 0 && |pre| % len == 0 && |t| == |pre|
    requires i % len == 0 && i + len <= |pre| && k < len / 2
    requires BlockInv(t, pre, len, ar, inverse, i, k)
    ensures var h := len / 2;
      var pair := ar.butterfly(t[i + k], t[i + k + h], len, k, inverse);
      BlockInv(t[i + k := pair.0][i + k + h := pair.1], pre, len, ar, inverse, i, k + 1)
  {
    var h := len / 2;
    var pair := ar.butterfly(t[i + k], t[i + k + h], len, k, inverse);
    var t' := t[i + k := pair.0][i + k + h := pair.1];
    ModOffset(i, len, k);
    ModOffset(i, len, k + h);
    assert t[i + k] == pre[i + k] && t[i + k + h] == pre[i + k + h];
    assert t'[i + k] == StageAt(pre, len, ar, inverse, i + k);
    assert t'[i + k + h] == StageAt(pre, len, ar, inverse, i + k + h);
    assert StageDone(t', pre, len, ar, inverse, 0, i + k + 1);
    assert Untouched(t', pre, i + k + 1, i + h);
    assert StageDone(t', pre, len, ar, inverse, i + h, i + h + k + 1);
    assert Untouched(t', pre, i + h + k + 1, |pre|);
  }

  lemma UpdateSlices<T>(before: seq<T>, after: seq<T>, n: nat, i: nat, j: nat, x: T, y: T)
    requires i < n && j < n && n <= |before|
    requires after == before[i := x][j := y]
    ensures after[..n] == before[..n][i := x][j := y]
    ensures after[n..] == before[n..]
  {
  }

  /** One butterfly of the block at i, at offset k: `u = data[i + k]`,
      `v = data[i + k + len/2] * w`, then `data[i + k] = u + v` and
      `data[i + k + len/2] = u - v`. */
  method Butterfly<T>(a: array<T>, n: nat, i: nat, k: nat, len: nat, ar: Arithmetic<T>, inverse: bool, ghost pre: seq<T>)
    requires n <= a.Length && |pre| == n
    requires len >= 2 && len % 2 == 0 && n % len == 0 && i % len == 0 && i + len <= n && k < len / 2
    requires BlockInv(a[..n], pre, len, ar, inverse, i, k)
    modifies a
    ensures BlockInv(a[..n], pre, len, ar, inverse, i, k + 1)
    ensures a[n..] == old(a[n..])
  {
    var h := len / 2;
    ghost var t := a[..n];
    ghost var before := a[..];
    var u := a[i + k];
    var v := a[i + k + h];
    assert u == t[i + k] && v == t[i + k + h];
    var pair := ar.butterfly(u, v, len, k, inverse);
    a[i + k] := pair.0;
    a[i + k + h] := pair.1;
    UpdateSlices(before, a[..], n, i + k, i + k + h, pair.0, pair.1);
    ghost var t' := t[i + k := pair.0][i + k + h := pair.1];
    assert a[..n] == t';
    BlockStep(t, pre, len, ar, inverse, i, k);
    assert BlockInv(t', pre, len, ar, inverse, i, k + 1);
  }

  /** Before the first offset of the block at i. */
  lemma BlockStart<T>(t: seq<T>, pre: seq<T>, len: nat, ar: Arithmetic<T>, inverse: bool, i: nat)
    requires len >= 2 && len % 2 == 0 && |pre| % len == 0 && |t| == |pre| && i + len <= |pre|
    requires StageDone(t, pre, len, ar, inverse, 0, i) && Untouched(t, pre, i, |pre|)
    ensures BlockInv(t, pre, len, ar, inverse, i, 0)
  {
  }

  /** With every offset of the block at i done, the stage is done up to
      the end of the block. */
  lemma BlockDone<T>(t: seq<T>, pre: seq<T>, len: nat, ar: Arithmetic<T>, inverse: bool, i: nat)
    requires len >= 2 && len % 2 == 0 && |pre| % len == 0 && |t| == |pre| && i + len <= |pre|
    requires BlockInv(t, pre, len, ar, inverse, i, len / 2)
    ensures StageDone(t, pre, len, ar, inverse, 0, i + len)
    ensures Untouched(t, pre, i + len, |pre|)
  {
  }

  /** One block of a stage: the offsets k = 0 .. len/2-1 of the block that
      starts at i, each pairing positions i+k and i+k+len/2. */
  method ButterflyBlock<T>(a: array<T>, n: nat, i: nat, len: nat, ar: Arithmetic<T>, inverse: bool, ghost pre: seq<T>)
    requires n <= a.Length && |pre| == n
    requires len >= 2 && len % 2 == 0 && n % len == 0 && i % len == 0 && i + len <= n
    requires StageDone(a[..n], pre, len, ar, inverse, 0, i)
    requires Untouched(a[..n], pre, i, n)
    modifies a
    ensures StageDone(a[..n], pre, len, ar, inverse, 0, i + len)
    ensures Untouched(a[..n], pre, i + len, n)
    ensures a[n..] == old(a[n..])
  {
    var h := len / 2;
    var k := 0;
    BlockStart(a[..n], pre, len, ar, inverse, i);
    while k < h
      invariant 0 <= k <= h
      invariant BlockInv(a[..n], pre, len, ar, inverse, i, k)
      invariant a[n..] == old(a[n..])
    {
      Butterfly(a, n, i, k, len, ar, inverse, pre);
      k := k + 1;
    }
    BlockDone(a[..n], pre, len, ar, inverse, i);
  }

  /** One stage: every block start i = 0, len, 2*len, ... below n. */
  method ButterflyStage<T>(a: array<T>, n: nat, len: nat, ar: Arithmetic<T>, inverse: bool)
    requires n <= a.Length && len >= 2 && len % 2 == 0 && n % len == 0
    modifies a
    ensures a[..n] == Stage(old(a[..n]), len, ar, inverse)
    ensures a[n..] == old(a[n..])
  {
    ghost var pre := a[..n];
    var i := 0;
    while i < n
      invariant 0 <= i <= n && i % len == 0
      invariant StageDone(a[..n], pre, len, ar, inverse, 0, i)
      invariant Untouched(a[..n], pre, i, n)
      invariant a[n..] == old(a[n..])
    {
      BlockBound(i, len, n);
      ButterflyBlock(a, n, i, len, ar, inverse, pre);
      DivModUnique(i + len, len, i / len + 1, 0);
      i := i + len;
    }
  }

  /** One stage taken off the front of the remaining stages. */
  lemma ButterfliedStep<T>(s: seq<T>, len: nat, ar: Arithmetic<T>, inverse: bool)
    requires IsPowerOfTwo(|s|) && IsPowerOfTwo(len) && 2 <= len <= |s|
    ensures IsPowerOfTwo(2 * len) && |s| % len == 0
    ensures Butterflied(s, len, ar, inverse) == Butterflied(Stage(s, len, ar, inverse), 2 * len, ar, inverse)
  {
    assert (2 * len) / 2 == len;
    PowerOfTwoDivides(len, |s|);
  }

  /** The loop over len = 2, 4, ... stops after log2 n stages. */
  lemma StageCount(n: nat, m: nat)
    requires IsPowerOfTwo(n) && m >= 1 && Pow2(m - 1) <= n < Pow2(m)
    ensures Log2(n) == m - 1
  {
    Pow2Order(m - 1, Log2(n));
    Pow2Order(Log2(n), m - 1);
    Pow2Order(Log2(n), m);
  }

  /** The butterfly loops (every stage len = 2, 4, ..., n, every block start
      i, every offset k) on the first n elements of a, in place. The ghost
      result lists the stage lengths in the order the loop takes them. */
  method Butterflies<T>(a: array<T>, n: nat, ar: Arithmetic<T>, inverse: bool) returns (ghost lens: seq<nat>)
    requires n <= a.Length && IsPowerOfTwo(n)
    modifies a
    ensures a[..n] == Butterflied(old(a[..n]), 2, ar, inverse)
    ensures a[n..] == old(a[n..])
    ensures |lens| == Log2(n)
    ensures forall m :: 0 <= m < |lens| ==> lens[m] == Pow2(m + 1)
  {
    ghost var s0 := a[..n];
    ghost var m: nat := 1;
    lens := [];
    var len := 2;
    assert IsPowerOfTwo(2);
    while len <= n
      invariant len == Pow2(m) && m >= 1 && IsPowerOfTwo(len)
      invariant Pow2(m - 1) <= n
      invariant |lens| == m - 1
      invariant forall q :: 0 <= q < |lens| ==> lens[q] == Pow2(q + 1)
      invariant Butterflied(a[..n], len, ar, inverse) == Butterflied(s0, 2, ar, inverse)
      invariant a[n..] == old(a[n..])
      decreases n + 1 - len
    {
      ButterfliedStep(a[..n], len, ar, inverse);
      ButterflyStage(a, n, len, ar, inverse);
      lens := lens + [len];
      len := 2 * len;
      m := m + 1;
    }
    assert Butterflied(a[..n], len, ar, inverse) == a[..n];
    StageCount(n, m);
  }

  /** Every element divided by n, the closing loop of the inverse transform. */
  function Scaled<T>(s: seq<T>, n: nat, ar: Arithmetic<T>): (r: seq<T>)
    ensures |r| == |s|
  {
    seq(|s|, p requires 0 <= p < |s| => ar.scale(s[p], n))
  }

  /** The C++ `fft` on an n-element prefix: bit reversal, the stages of
      length 2, 4, ..., n, then (inverse only) division by n. */
  function Transformed<T>(s: seq<T>, ar: Arithmetic<T>, inverse: bool): (r: seq<T>)
    requires ValidSize(|s|)
    ensures |r| == |s|
  {
    if |s| == 0 then s
    else
      var b := Butterflied(BitReversed(s), 2, ar, inverse);
      if inverse then Scaled(b, |s|, ar) else b
  }

  /** The Swift `fft`, which returns at once when there are fewer than two elements. */
  function SwiftTransformed<T>(s: seq<T>, ar: Arithmetic<T>, inverse: bool): (r: seq<T>)
    requires ValidSize(|s|)
    ensures |r| == |s|
  {
    if |s| <= 1 then s else Transformed(s, ar, inverse)
  }

  /** The bit-reversal pass sends the element at index i to index Rev(i). */
  lemma BitReversedMoves<T>(s: seq<T>, i: nat)
    requires IsPowerOfTwo(|s|) && i < |s|
    ensures Rev(i, Log2(|s|)) < |s|
    ensures BitReversed(s)[Rev(i, Log2(|s|))] == s[i]
  {
    RevInvolution(i, Log2(|s|));
  }

  /** A one-element array has no stage to run. */
  lemma ButterfliedSingle<T>(s: seq<T>, len: nat, ar: Arithmetic<T>, inverse: bool)
    requires |s| == 1 && IsPowerOfTwo(len) && len >= 2
    ensures Butterflied(s, len, ar, inverse) == s
  {
  }

  /** The two programs' transforms agree except on a one-element inverse,
      where the C++ one still divides the element by 1 and the Swift one
      returns early; a forward transform of one element is the identity. */
  lemma TransformsAgree<T>(s: seq<T>, ar: Arithmetic<T>, inverse: bool)
    requires ValidSize(|s|)
    ensures |s| != 1 || !inverse ==> SwiftTransformed(s, ar, inverse) == Transformed(s, ar, inverse)
    ensures |s| == 1 ==> Transformed(s, ar, false) == s
    ensures |s| == 1 ==> Transformed(s, ar, true) == [ar.scale(s[0], 1)]
  {
    if |s| == 1 {
      BitReversedSmall(s);
      ButterfliedSingle(BitReversed(s), 2, ar, inverse);
      assert IsPowerOfTwo(2);
    }
  }

  /** The division loop of the inverse transform. */
  method ScaleAll<T>(a: array<T>, n: nat, ar: Arithmetic<T>)
    requires n <= a.Length
    modifies a
    ensures a[..n] == Scaled(old(a[..n]), n, ar)
    ensures a[n..] == old(a[n..])
  {
    ghost var s := a[..n];
    var i := 0;
    while i < n
      invariant 0 <= i <= n
      invariant forall p :: 0 <= p < i ==> a[p] == ar.scale(s[p], n)
      invariant forall p :: i <= p < n ==> a[p] == s[p]
      invariant a[n..] == old(a[n..])
    {
      a[i] := ar.scale(a[i], n);
      i := i + 1;
    }
  }

  /** The C++ `fft(data, n, inverse)`, which has no early return. */
  method CppFft<T>(a: array<T>, n: nat, ar: Arithmetic<T>, inverse: bool)
    requires n <= a.Length && ValidSize(n)
    modifies a
    ensures a[..n] == Transformed(old(a[..n]), ar, inverse)
    ensures a[n..] == old(a[n..])
  {
    if n == 0 {
      return;
    }
    ghost var s := a[..n];
    BitReversePermute(a, n);
    ghost var lens := Butterflies(a, n, ar, inverse);
    if inverse {
      ScaleAll(a, n, ar);
    }
  }

  /** The Swift `fft(&data, inverse:)` on the whole array. */
  method SwiftFft<T>(a: array<T>, ar: Arithmetic<T>, inverse: bool)
    requires ValidSize(a.Length)
    modifies a
    ensures a[..] == SwiftTransformed(old(a[..]), ar, inverse)
  {
    if a.Length <= 1 {
      return;
    }
    assert a[..] == a[..a.Length];
    CppFft(a, a.Length, ar, inverse);
    assert a[..] == a[..a.Length];
  }

  /** `repeats` forward/inverse pairs applied to s. */
  function RoundTrips<T>(s: seq<T>, repeats: nat, ar: Arithmetic<T>, swift: bool): (r: seq<T>)
    requires ValidSize(|s|)
    ensures |r| == |s|
    decreases repeats
  {
    if repeats == 0 then s
    else
      var f := if swift then SwiftTransformed(s, ar, false) else Transformed(s, ar, false);
      var b := if swift then SwiftTransformed(f, ar, true) else Transformed(f, ar, true);
      RoundTrips(b, repeats - 1, ar, swift)
  }

  /** The initial buffer: sample i of a signal of the given size. */
  function Signal<T>(size: nat, signal: (nat, nat) -> T): (r: seq<T>)
    ensures |r| == size
  {
    seq(size, (i: int) requires 0 <= i < size => signal(i, size))
  }

  /** The repeat loop of `performFFTWithSize`: `repeats` forward/inverse
      pairs on the first n elements. */
  method CppRoundTrips<T>(a: array<T>, n: nat, repeats: nat, ar: Arithmetic<T>)
    requires n <= a.Length && ValidSize(n)
    modifies a
    ensures a[..n] == RoundTrips(old(a[..n]), repeats, ar, false)
    ensures a[n..] == old(a[n..])
  {
    ghost var s := a[..n];
    var r := 0;
    while r < repeats
      invariant 0 <= r <= repeats
      invariant RoundTrips(a[..n], repeats - r, ar, false) == RoundTrips(s, repeats, ar, false)
      invariant a[n..] == old(a[n..])
    {
      CppFft(a, n, ar, false);
      CppFft(a, n, ar, true);
      r := r + 1;
    }
  }

  /** The C++ `performFFTWithSize`: a 256-element buffer, the first fft_size
      elements set to the signal, then `repeats` forward/inverse pairs. The
      buffer is returned so that its final content can be stated. */
  method PerformFftWithSize<T>(size: nat, repeats: nat, ar: Arithmetic<T>, zero: T, signal: (nat, nat) -> T)
    returns (data: array<T>)
    requires size <= 256 && ValidSize(size)
    ensures data.Length == 256
    ensures data[..size] == RoundTrips(Signal(size, signal), repeats, ar, false)
    ensures forall p :: size <= p < 256 ==> data[p] == zero
  {
    data := new T[256](_ => zero);
    var i := 0;
    while i < size
      invariant 0 <= i <= size
      invariant forall p :: 0 <= p < i ==> data[p] == signal(p, size)
      invariant forall p :: i <= p < 256 ==> data[p] == zero
    {
      data[i] := signal(i, size);
      i := i + 1;
    }
    assert data[..size] == Signal(size, signal);
    CppRoundTrips(data, size, repeats, ar);
    assert forall p :: size <= p < 256 ==> data[p] == data[size..][p - size];
  }

  /** The repeat loop of the Swift `performFFTLoad`. */
  method SwiftRoundTrips<T>(a: array<T>, repeats: nat, ar: Arithmetic<T>)
    requires ValidSize(a.Length)
    modifies a
    ensures a[..] == RoundTrips(old(a[..]), repeats, ar, true)
  {
    ghost var s := a[..];
    var r := 0;
    while r < repeats
      invariant 0 <= r <= repeats
      invariant RoundTrips(a[..], repeats - r, ar, true) == RoundTrips(s, repeats, ar, true)
    {
      ghost var before := a[..];
      SwiftFft(a, ar, false);
      SwiftFft(a, ar, true);
      assert a[..] == SwiftTransformed(SwiftTransformed(before, ar, false), ar, true);
      r := r + 1;
    }
  }

  /** The C++ `performFFTLoad(level)`: the table lookup, then the sized load. */
  method CppPerformFftLoad<T>(level: FftLoadLevel, ar: Arithmetic<T>, zero: T, signal: (nat, nat) -> T)
    returns (data: array<T>)
    ensures data.Length == 256
    ensures data[..CppFftSize(level)]
      == RoundTrips(Signal(CppFftSize(level), signal), CppRepeats(level), ar, false)
  {
    data := PerformFftWithSize(CppFftSize(level), CppRepeats(level), ar, zero, signal);
  }

  /** The Swift `performFFTLoad(level:)`: a buffer of exactly the table's
      size, set to the signal, then the table's number of forward/inverse pairs. */
  method SwiftPerformFftLoad<T>(level: FftLoadLevel, ar: Arithmetic<T>, signal: (nat, nat) -> T)
    returns (data: array<T>)
    ensures data.Length == SwiftFftSize(level)
    ensures data[..] == RoundTrips(Signal(SwiftFftSize(level), signal), SwiftRepeats(level), ar, true)
  {
    var size := SwiftFftSize(level);
    var repeats := SwiftRepeats(level);
    data := new T[size](i => signal(i, size));
    assert data[..] == Signal(size, signal);
    SwiftRoundTrips(data, repeats, ar);
  }
}
