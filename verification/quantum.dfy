/** The single simulated qubit behind the quantum load: its amplitudes, the
    gates the load applies, and the three gate loops of `performQuantumLoad`.
    Amplitudes are exact reals. The Hadamard and T gates use the source's
    literal 0.70710678118 as an exact decimal; the RY rotation takes the
    cosine and sine of its half angle as parameters, since trigonometry is
    not modelled. */
module Quantum {
  import opened Common

  datatype Complex = Complex(re: real, im: real)

  /** The amplitudes of |0> and |1>. */
  datatype QubitState = QubitState(alpha: Complex, beta: Complex)

  /** The source's rounded 1/sqrt(2), also its cos 45° and sin 45°. */
  const InvSqrt2: real := 0.70710678118

  function Neg(z: Complex): Complex
  {
    Complex(-z.re, -z.im)
  }

  /** Both amplitudes multiplied by the real k. */
  function ScaleState(s: QubitState, k: real): QubitState
  {
    QubitState(Complex(k * s.alpha.re, k * s.alpha.im), Complex(k * s.beta.re, k * s.beta.im))
  }

  /** `applyX`: the amplitudes change places. */
  function PauliX(s: QubitState): (r: QubitState)
    ensures r.alpha == s.beta && r.beta == s.alpha
  {
    QubitState(s.beta, s.alpha)
  }

  /** `applyZ`: beta is negated, alpha kept. */
  function PauliZ(s: QubitState): (r: QubitState)
    ensures r.alpha == s.alpha && r.beta == Neg(s.beta)
  {
    QubitState(s.alpha, Complex(-s.beta.re, -s.beta.im))
  }

  /** `applyS`: beta is multiplied by i, alpha kept. */
  function PhaseS(s: QubitState): (r: QubitState)
    ensures r.alpha == s.alpha
    ensures r.beta.re == -s.beta.im && r.beta.im == s.beta.re
  {
    QubitState(s.alpha, Complex(-s.beta.im, s.beta.re))
  }

  /** `applyT`: beta is multiplied by the rounded e^(iπ/4), alpha kept. */
  function PhaseT(s: QubitState): (r: QubitState)
    ensures r.alpha == s.alpha
  {
    QubitState(s.alpha, Complex(
      s.beta.re * InvSqrt2 - s.beta.im * InvSqrt2,
      s.beta.re * InvSqrt2 + s.beta.im * InvSqrt2))
  }

  /** `applyHadamard` with the rounded 1/sqrt(2). */
  function Hadamard(s: QubitState): QubitState
  {
    QubitState(
      Complex((s.alpha.re + s.beta.re) * InvSqrt2, (s.alpha.im + s.beta.im) * InvSqrt2),
      Complex((s.alpha.re - s.beta.re) * InvSqrt2, (s.alpha.im - s.beta.im) * InvSqrt2))
  }

  /** `applyRY(theta)` given cos(theta/2) and sin(theta/2). */
  function RotateY(s: QubitState, cosHalf: real, sinHalf: real): (r: QubitState)
    ensures cosHalf == 1.0 && sinHalf == 0.0 ==> r == s
  {
    QubitState(
      Complex(cosHalf * s.alpha.re - sinHalf * s.beta.re, cosHalf * s.alpha.im - sinHalf * s.beta.im),
      Complex(sinHalf * s.alpha.re + cosHalf * s.beta.re, sinHalf * s.alpha.im + cosHalf * s.beta.im))
  }

  lemma XTwiceIsIdentity(s: QubitState)
    ensures PauliX(PauliX(s)) == s
  {
  }

  lemma ZTwiceIsIdentity(s: QubitState)
    ensures PauliZ(PauliZ(s)) == s
  {
  }

  lemma STwiceIsZ(s: QubitState)
    ensures PhaseS(PhaseS(s)) == PauliZ(s)
  {
  }

  lemma SFourTimesIsIdentity(s: QubitState)
    ensures PhaseS(PhaseS(PhaseS(PhaseS(s)))) == s
  {
    STwiceIsZ(s);
    STwiceIsZ(PhaseS(PhaseS(s)));
    ZTwiceIsIdentity(s);
  }

  /** Z commutes with S: both only act on beta, by a sign and by i. */
  lemma ZCommutesWithS(s: QubitState)
    ensures PauliZ(PhaseS(s)) == PhaseS(PauliZ(s))
  {
  }

  /** |alpha|² + |beta|², the total probability. */
  function NormSq(s: QubitState): real
  {
    s.alpha.re * s.alpha.re + s.alpha.im * s.alpha.im + s.beta.re * s.beta.re + s.beta.im * s.beta.im
  }

  /** X, Z and S permute or rotate amplitudes exactly: the total
      probability is kept. */
  lemma ExactGatesKeepNorm(s: QubitState)
    ensures NormSq(PauliX(s)) == NormSq(s)
    ensures NormSq(PauliZ(s)) == NormSq(s)
    ensures NormSq(PhaseS(s)) == NormSq(s)
  {
  }

  /** ((x + y)c)² + ((x - y)c)² = 2c²(x² + y²). */
  lemma SumDiffSquares(x: real, y: real, c: real)
    ensures (x + y) * c * ((x + y) * c) + (x - y) * c * ((x - y) * c) == 2.0 * c * c * (x * x + y * y)
  {
    assert (x + y) * c * ((x + y) * c) == c * c * (x * x + 2.0 * x * y + y * y);
    assert (x - y) * c * ((x - y) * c) == c * c * (x * x - 2.0 * x * y + y * y);
  }

  /** The rounded Hadamard scales the total probability by GroverGain
      (1 with an exact 1/sqrt(2)). */
  lemma HadamardScalesNorm(s: QubitState)
    ensures NormSq(Hadamard(s)) == GroverGain * NormSq(s)
  {
    SumDiffSquares(s.alpha.re, s.beta.re, InvSqrt2);
    SumDiffSquares(s.alpha.im, s.beta.im, InvSqrt2);
  }

  /** The rounded T gate scales |beta|² by GroverGain and keeps alpha. */
  lemma PhaseTScalesBeta(s: QubitState)
    ensures var t := PhaseT(s);
      t.beta.re * t.beta.re + t.beta.im * t.beta.im == GroverGain * (s.beta.re * s.beta.re + s.beta.im * s.beta.im)
  {
    SumDiffSquares(s.beta.re, s.beta.im, InvSqrt2);
    var x, y, c := s.beta.re, s.beta.im, InvSqrt2;
    assert (x * c - y * c) * (x * c - y * c) == (x - y) * c * ((x - y) * c);
    assert (x * c + y * c) * (x * c + y * c) == (x + y) * c * ((x + y) * c);
  }

  /** RY given a true cosine and sine keeps the total probability. */
  lemma RotateYKeepsNorm(s: QubitState, cosHalf: real, sinHalf: real)
    requires cosHalf * cosHalf + sinHalf * sinHalf == 1.0
    ensures NormSq(RotateY(s, cosHalf, sinHalf)) == NormSq(s)
  {
    RotationKeepsPair(cosHalf, sinHalf, s.alpha.re, s.beta.re);
    RotationKeepsPair(cosHalf, sinHalf, s.alpha.im, s.beta.im);
  }

  /** A plane rotation keeps x² + y². */
  lemma RotationKeepsPair(c: real, n: real, x: real, y: real)
    requires c * c + n * n == 1.0
    ensures (c * x - n * y) * (c * x - n * y) + (n * x + c * y) * (n * x + c * y) == x * x + y * y
  {
    assert (c * x - n * y) * (c * x - n * y) + (n * x + c * y) * (n * x + c * y)
      == (c * c + n * n) * (x * x + y * y);
  }

  /** H twice is GroverGain times the identity. */
  lemma HadamardTwice(s: QubitState)
    ensures Hadamard(Hadamard(s)) == ScaleState(s, GroverGain)
  {
    var c := InvSqrt2;
    var h := Hadamard(Hadamard(s));
    assert h.alpha.re == ((s.alpha.re + s.beta.re) * c + (s.alpha.re - s.beta.re) * c) * c == GroverGain * s.alpha.re;
    assert h.alpha.im == ((s.alpha.im + s.beta.im) * c + (s.alpha.im - s.beta.im) * c) * c == GroverGain * s.alpha.im;
    assert h.beta.re == ((s.alpha.re + s.beta.re) * c - (s.alpha.re - s.beta.re) * c) * c == GroverGain * s.beta.re;
    assert h.beta.im == ((s.alpha.im + s.beta.im) * c - (s.alpha.im - s.beta.im) * c) * c == GroverGain * s.beta.im;
  }

  /** One iteration of the second loop, Z H X Z X H. */
  function GroverBlock(s: QubitState): QubitState
  {
    Hadamard(PauliX(PauliZ(PauliX(Hadamard(PauliZ(s))))))
  }

  /** The square of the rounded 1/sqrt(2), doubled: 0.9999999999... instead of 1. */
  const GroverGain: real := 2.0 * InvSqrt2 * InvSqrt2

  /** (alpha, beta) to g·(beta, -alpha): a quarter turn scaled by g. */
  function QuarterTurn(s: QubitState, g: real): QubitState
  {
    QubitState(Complex(g * s.beta.re, g * s.beta.im), Complex(-g * s.alpha.re, -g * s.alpha.im))
  }

  /** One Grover block sends (alpha, beta) to g·(beta, -alpha), where g is the
      doubled square of the rounded constant; with an exact 1/sqrt(2) it
      would be the rotation (beta, -alpha). */
  lemma {:induction false} GroverBlockRotates(s: QubitState)
    ensures GroverBlock(s) == QuarterTurn(s, GroverGain)
  {
    var c := InvSqrt2;
    var a, b := s.alpha, s.beta;
    var h1 := Hadamard(PauliZ(s));
    assert h1.alpha == Complex((a.re - b.re) * c, (a.im - b.im) * c);
    assert h1.beta == Complex((a.re + b.re) * c, (a.im + b.im) * c);
    var t := PauliX(PauliZ(PauliX(h1)));
    assert t.alpha == Complex(-(a.re - b.re) * c, -(a.im - b.im) * c);
    assert t.beta == Complex((a.re + b.re) * c, (a.im + b.im) * c);
    var r := Hadamard(t);
    assert r.alpha.re == (-(a.re - b.re) * c + (a.re + b.re) * c) * c == GroverGain * b.re;
    assert r.alpha.im == (-(a.im - b.im) * c + (a.im + b.im) * c) * c == GroverGain * b.im;
    assert r.beta.re == (-(a.re - b.re) * c - (a.re + b.re) * c) * c == -GroverGain * a.re;
    assert r.beta.im == (-(a.im - b.im) * c - (a.im + b.im) * c) * c == -GroverGain * a.im;
  }

  lemma QuarterTurnTwice(s: QubitState, g: real)
    ensures QuarterTurn(QuarterTurn(s, g), g) == ScaleState(s, -(g * g))
  {
    var a, b := s.alpha, s.beta;
    assert g * (-g * a.re) == -(g * g) * a.re;
    assert g * (-g * a.im) == -(g * g) * a.im;
    assert -g * (g * b.re) == -(g * g) * b.re;
    assert -g * (g * b.im) == -(g * g) * b.im;
  }

  /** Two Grover blocks negate the state, scaled by g². */
  lemma GroverTwiceNegates(s: QubitState)
    ensures GroverBlock(GroverBlock(s)) == ScaleState(s, -(GroverGain * GroverGain))
  {
    GroverBlockRotates(s);
    GroverBlockRotates(GroverBlock(s));
    QuarterTurnTwice(s, GroverGain);
  }

  /** Two X/H steps of the first loop do what one Grover block does. */
  lemma WalkPairIsGroverBlock(s: QubitState)
    ensures HadamardWalk(s, 2) == GroverBlock(s)
  {
    var c := InvSqrt2;
    var a, b := s.alpha, s.beta;
    var w := Hadamard(PauliX(Hadamard(PauliX(s))));
    assert HadamardWalk(s, 2) == w;
    assert w.alpha.re == ((b.re - a.re) * c + (b.re + a.re) * c) * c == GroverGain * b.re;
    assert w.alpha.im == ((b.im - a.im) * c + (b.im + a.im) * c) * c == GroverGain * b.im;
    assert w.beta.re == ((b.re - a.re) * c - (b.re + a.re) * c) * c == -GroverGain * a.re;
    assert w.beta.im == ((b.im - a.im) * c - (b.im + a.im) * c) * c == -GroverGain * a.im;
    GroverBlockRotates(s);
  }

  /** The shift `i % 8 + 1` of the third loop. */
  function QftShift(i: nat): (k: nat)
    ensures 1 <= k <= 8
  {
    i % 8 + 1
  }

  /** The divisor `1 << (i % 8 + 1)` of the angle π / divisor: a power of two
      from 2 to 256, so the shift never overflows an int. */
  function QftDivisor(i: nat): (d: nat)
    ensures 2 <= d <= 256 && IsPowerOfTwo(d)
    ensures d == Pow2(QftShift(i))
  {
    var k := QftShift(i);
    Pow2Order(1, k);
    Pow2Order(k, 8);
    Pow2IsPowerOfTwo(k);
    Pow2(k)
  }

  /** The first loop: `count` iterations of X then H. */
  function HadamardWalk(s: QubitState, count: nat): QubitState
    decreases count
  {
    if count == 0 then s else HadamardWalk(Hadamard(PauliX(s)), count - 1)
  }

  /** The second loop: `count` Grover blocks. */
  function GroverLoop(s: QubitState, count: nat): QubitState
    decreases count
  {
    if count == 0 then s else GroverLoop(GroverBlock(s), count - 1)
  }

  /** The third loop from iteration i to count - 1: RY(π / QftDivisor(i)),
      then S, then T. `halfAngle(d)` is (cos, sin) of π / (2 d). */
  function QftLoop(s: QubitState, i: nat, count: nat, halfAngle: nat -> (real, real)): QubitState
    decreases count - i
  {
    if i >= count then s
    else
      var cs := halfAngle(QftDivisor(i));
      QftLoop(PhaseT(PhaseS(RotateY(s, cs.0, cs.1))), i + 1, count, halfAngle)
  }

  /** The qubit object; each gate method updates the amplitudes in place. */
  class Qubit {
    var alpha: Complex
    var beta: Complex

    function State(): QubitState
      reads this
    {
      QubitState(alpha, beta)
    }

    /** The qubit starts in |0>. */
    constructor ()
      ensures alpha == Complex(1.0, 0.0) && beta == Complex(0.0, 0.0)
    {
      alpha := Complex(1.0, 0.0);
      beta := Complex(0.0, 0.0);
    }

    method ApplyHadamard()
      modifies this
      ensures State() == Hadamard(old(State()))
    {
      var newAlpha := Complex((alpha.re + beta.re) * InvSqrt2, (alpha.im + beta.im) * InvSqrt2);
      var newBeta := Complex((alpha.re - beta.re) * InvSqrt2, (alpha.im - beta.im) * InvSqrt2);
      alpha := newAlpha;
      beta := newBeta;
    }

    method ApplyX()
      modifies this
      ensures State() == PauliX(old(State()))
    {
      alpha, beta := beta, alpha;
    }

    method ApplyZ()
      modifies this
      ensures State() == PauliZ(old(State()))
    {
      beta := Complex(-beta.re, -beta.im);
    }

    method ApplyS()
      modifies this
      ensures State() == PhaseS(old(State()))
    {
      beta := Complex(-beta.im, beta.re);
    }

    method ApplyT()
      modifies this
      ensures State() == PhaseT(old(State()))
    {
      beta := Complex(beta.re * InvSqrt2 - beta.im * InvSqrt2, beta.re * InvSqrt2 + beta.im * InvSqrt2);
    }

    method ApplyRY(cosHalf: real, sinHalf: real)
      modifies this
      ensures State() == RotateY(old(State()), cosHalf, sinHalf)
    {
      var newAlpha := Complex(cosHalf * alpha.re - sinHalf * beta.re, cosHalf * alpha.im - sinHalf * beta.im);
      var newBeta := Complex(sinHalf * alpha.re + cosHalf * beta.re, sinHalf * alpha.im + cosHalf * beta.im);
      alpha := newAlpha;
      beta := newBeta;
    }

    /** `getAlpha()` of the C++ class. */
    method GetAlpha() returns (a: Complex)
      ensures a == alpha
    {
      a := alpha;
    }

    /** `getBeta()` of the C++ class. */
    method GetBeta() returns (b: Complex)
      ensures b == beta
    {
      b := beta;
    }
  }

  /** The state `performQuantumLoad` reaches before its final measurement. */
  function QuantumLoadState(halfAngle: nat -> (real, real)): QubitState
  {
    var start := QubitState(Complex(1.0, 0.0), Complex(0.0, 0.0));
    QftLoop(GroverLoop(HadamardWalk(Hadamard(start), 150), 75), 0, 150, halfAngle)
  }

  /** The first loop of `performQuantumLoad`. */
  method RunHadamardWalk(q: Qubit, count: nat)
    modifies q
    ensures q.State() == HadamardWalk(old(q.State()), count)
  {
    ghost var start := q.State();
    var i := 0;
    while i < count
      invariant 0 <= i <= count
      invariant HadamardWalk(q.State(), count - i) == HadamardWalk(start, count)
    {
      q.ApplyX();
      q.ApplyHadamard();
      i := i + 1;
    }
  }

  /** One iteration of the second loop: Z, H, X, Z, X, H. */
  method ApplyGroverBlock(q: Qubit)
    modifies q
    ensures q.State() == GroverBlock(old(q.State()))
  {
    q.ApplyZ();
    q.ApplyHadamard();
    q.ApplyX();
    q.ApplyZ();
    q.ApplyX();
    q.ApplyHadamard();
  }

  /** The second loop of `performQuantumLoad`. */
  method RunGroverLoop(q: Qubit, count: nat)
    modifies q
    ensures q.State() == GroverLoop(old(q.State()), count)
  {
    ghost var start := q.State();
    var i := 0;
    while i < count
      invariant 0 <= i <= count
      invariant GroverLoop(q.State(), count - i) == GroverLoop(start, count)
    {
      ApplyGroverBlock(q);
      i := i + 1;
    }
  }

  /** The third loop of `performQuantumLoad`. */
  method RunQftLoop(q: Qubit, count: nat, halfAngle: nat -> (real, real))
    modifies q
    ensures q.State() == QftLoop(old(q.State()), 0, count, halfAngle)
  {
    ghost var start := q.State();
    var i := 0;
    while i < count
      invariant 0 <= i <= count
      invariant QftLoop(q.State(), i, count, halfAngle) == QftLoop(start, 0, count, halfAngle)
    {
      var divisor := QftDivisor(i);
      var cs := halfAngle(divisor);
      q.ApplyRY(cs.0, cs.1);
      q.ApplyS();
      q.ApplyT();
      i := i + 1;
    }
  }

  /** `performQuantumLoad` without its final random measurement: one
      Hadamard, 150 X/H iterations, 75 Grover blocks, 150 RY/S/T iterations. */
  method PerformQuantumLoad(halfAngle: nat -> (real, real)) returns (q: Qubit)
    ensures q.State() == QuantumLoadState(halfAngle)
  {
    q := new Qubit();
    q.ApplyHadamard();
    RunHadamardWalk(q, 150);
    RunGroverLoop(q, 75);
    RunQftLoop(q, 150, halfAngle);
  }
}
