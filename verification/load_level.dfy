/** The four FFT load levels (75, 80, 85 and 90 percent of the 3.6 µs base
    period) and the two lookup tables that turn a level into a transform
    size and a repeat count: `FFTLoadLevel.fftSize`/`repeats` in the Swift
    program and the `performFFTLoad` switch in the C++ library. */
module LoadLevel {
  import opened Common

  datatype FftLoadLevel = Load75 | Load80 | Load85 | Load90

  /** The levels in declaration order, the order `allCases` and the C++
      configuration arrays iterate in. */
  const AllLevels: seq<FftLoadLevel> := [Load75, Load80, Load85, Load90]

  lemma AllLevelsComplete(l: FftLoadLevel)
    ensures l in AllLevels
    ensures |AllLevels| == 4 && forall p, q :: 0 <= p < q < 4 ==> AllLevels[p] != AllLevels[q]
  {
  }

  /** The share of the 3.6 µs base period the level's FFT load is meant to fill. */
  function Percent(l: FftLoadLevel): nat
  {
    match l
    case Load75 => 75
    case Load80 => 80
    case Load85 => 85
    case Load90 => 90
  }

  /** The raw value of the Swift enum, also the name in the C++ configuration
      arrays: the part of every result key that names the level. It is the
      level's percentage in two decimal digits followed by a percent sign. */
  function RawValue(l: FftLoadLevel): (r: string)
    ensures |r| == 3 && r[2] == '%'
    ensures (r[0] as int - '0' as int) * 10 + (r[1] as int - '0' as int) == Percent(l)
  {
    match l
    case Load75 => "75%"
    case Load80 => "80%"
    case Load85 => "85%"
    case Load90 => "90%"
  }

  lemma RawValueInjective(l: FftLoadLevel, m: FftLoadLevel)
    ensures RawValue(l) == RawValue(m) <==> l == m
  {
    if RawValue(l) == RawValue(m) {
      assert RawValue(l)[..2] == RawValue(m)[..2];
    }
  }

  /** Human-readable label of the Swift enum. */
  function Label(l: FftLoadLevel): (r: string)
    ensures |r| > 3 && r[..3] == RawValue(l)
  {
    match l
    case Load75 => "75% (2.70μs)"
    case Load80 => "80% (2.88μs)"
    case Load85 => "85% (3.06μs)"
    case Load90 => "90% (3.24μs)"
  }

  /** Transform size of the Swift table. */
  function SwiftFftSize(l: FftLoadLevel): (n: nat)
    ensures IsPowerOfTwo(n) && n <= 256
  {
    match l
    case Load75 | Load80 => 64
    case Load85 | Load90 => 128
  }

  /** Repeat count of the Swift table. */
  function SwiftRepeats(l: FftLoadLevel): (r: nat)
    ensures 4 <= r <= 8
  {
    match l
    case Load75 => 4
    case Load80 => 5
    case Load85 => 6
    case Load90 => 8
  }

  /** (size, repeats) the C++ `performFFTLoad` passes to `performFFTWithSize`. */
  function CppFftSize(l: FftLoadLevel): (n: nat)
    ensures IsPowerOfTwo(n) && n <= 256
  {
    match l
    case Load75 | Load80 => 64
    case Load85 | Load90 => 128
  }

  function CppRepeats(l: FftLoadLevel): (r: nat)
    ensures 3 <= r <= 5
  {
    match l
    case Load75 => 4
    case Load80 => 5
    case Load85 => 3
    case Load90 => 4
  }

  /** Both tables use the same sizes; their repeat counts agree at 75% and
      80% and differ by a factor of two at 85% and 90%. */
  lemma TablesCompared(l: FftLoadLevel)
    ensures SwiftFftSize(l) == CppFftSize(l)
    ensures l == Load75 || l == Load80 ==> SwiftRepeats(l) == CppRepeats(l)
    ensures l == Load85 || l == Load90 ==> SwiftRepeats(l) == 2 * CppRepeats(l)
    ensures SwiftRepeats(l) == CppRepeats(l) <==> l == Load75 || l == Load80
  {
  }

  /** Butterfly work of one level: size × repeats round trips. */
  function SwiftWork(l: FftLoadLevel): nat
  {
    SwiftFftSize(l) * SwiftRepeats(l)
  }

  function CppWork(l: FftLoadLevel): nat
  {
    CppFftSize(l) * CppRepeats(l)
  }

  /** In both tables a higher load level does strictly more work. */
  lemma WorkIncreases(p: nat, q: nat)
    requires p < q < |AllLevels|
    ensures SwiftWork(AllLevels[p]) < SwiftWork(AllLevels[q])
    ensures CppWork(AllLevels[p]) < CppWork(AllLevels[q])
  {
  }
}
