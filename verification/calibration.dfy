/** CPU calibration: choosing the cycle-counter frequency and deriving the
    three busy-wait tick counts for the 276.3, 277.3 and 278.3 kHz target
    frequencies (`calibrateCPU` in both programs). The tick derivation goes
    through floating point in the source; here it is the exact-arithmetic
    idealisation floor(f / target), which is what the truncating cast of
    f × (1 / target) computes when no rounding intervenes. */
module Calibration {
  import opened Common

  const Uint64Modulus: nat := 0x1_0000_0000_0000_0000

  /** The three target frequencies in Hz. */
  const TargetMinus1: nat := 276300
  const TargetCenter: nat := 277300
  const TargetPlus1: nat := 278300

  datatype CalibrationData = CalibrationData(
    cpuFreqHz: nat,
    tickCenter: nat,
    tickMinus1: nat,
    tickPlus1: nat)

  /** Cycles in one period of the target frequency. */
  function Tick(cpuFreqHz: nat, targetHz: nat): (t: nat)
    requires targetHz > 0
    ensures t * targetHz <= cpuFreqHz < (t + 1) * targetHz
  {
    var t := cpuFreqHz / targetHz;
    DivModUnique(cpuFreqHz, targetHz, t, cpuFreqHz % targetHz);
    t
  }

  /** Any q with q * a <= f is at most f / a. */
  lemma DivLowerBound(f: nat, a: nat, q: nat)
    requires a > 0 && q * a <= f
    ensures q <= f / a
  {
    assert f == f / a * a + f % a;
    MulAwayFromZero(q - f / a, a);
    assert (q - f / a) * a == q * a - f / a * a;
  }

  /** A longer period never has fewer cycles: floor division is antitone
      in the divisor. */
  lemma DivAntitone(f: nat, a: nat, b: nat)
    requires 0 < a <= b
    ensures f / a >= f / b
  {
    var q := f / b;
    assert q * b <= f;
    MulMonotone(q, a, b);
    DivLowerBound(f, a, q);
  }

  lemma MulMonotone(c: nat, x: nat, y: nat)
    requires x <= y
    ensures c * x <= c * y && x * c <= y * c
  {
  }

  /** The three ticks of a frequency. */
  function Ticks(cpuFreqHz: nat): (cal: CalibrationData)
    ensures cal.cpuFreqHz == cpuFreqHz
  {
    CalibrationData(cpuFreqHz,
      Tick(cpuFreqHz, TargetCenter),
      Tick(cpuFreqHz, TargetMinus1),
      Tick(cpuFreqHz, TargetPlus1))
  }

  /** The lowest target frequency has the longest period: its tick is the
      largest, and the tick of the highest target is the smallest; all are
      positive once the frequency reaches the highest target. */
  lemma TicksOrdered(cpuFreqHz: nat)
    ensures Ticks(cpuFreqHz).tickMinus1 >= Ticks(cpuFreqHz).tickCenter >= Ticks(cpuFreqHz).tickPlus1
    ensures cpuFreqHz >= TargetPlus1 ==> Ticks(cpuFreqHz).tickPlus1 >= 1
  {
    DivAntitone(cpuFreqHz, TargetMinus1, TargetCenter);
    DivAntitone(cpuFreqHz, TargetCenter, TargetPlus1);
  }

  /** Swift `calibrateCPU`: a measured frequency below 20 MHz is taken to be
      the 24 MHz base clock of Apple Silicon. */
  function SwiftFrequency(measured: nat): (f: nat)
    ensures f >= 20_000_000
    ensures f == measured || f == 24_000_000
    ensures measured >= 20_000_000 <==> f == measured
  {
    if measured < 20_000_000 then 24_000_000 else measured
  }

  function SwiftCalibrate(measured: nat): (cal: CalibrationData)
    ensures cal.cpuFreqHz == SwiftFrequency(measured)
  {
    Ticks(SwiftFrequency(measured))
  }

  /** The Swift calibration always yields ordered, positive ticks. */
  lemma SwiftCalibrationSound(measured: nat)
    ensures var cal := SwiftCalibrate(measured);
      cal.tickMinus1 >= cal.tickCenter >= cal.tickPlus1 >= 1
  {
    TicksOrdered(SwiftFrequency(measured));
  }

  /** C++ `calibrateCPU(override_freq_hz)`: a positive override wins; else
      the measured frequency if above 1 GHz; else the 2.4 GHz default. */
  function CppFrequency(overrideHz: nat, measured: nat): (f: nat)
    ensures overrideHz > 0 ==> f == overrideHz
    ensures overrideHz == 0 ==> f > 1_000_000_000
    ensures overrideHz == 0 && measured > 1_000_000_000 ==> f == measured
    ensures overrideHz == 0 && measured <= 1_000_000_000 ==> f == 2_400_000_000
  {
    if overrideHz > 0 then overrideHz
    else if measured > 1_000_000_000 then measured
    else 2_400_000_000
  }

  function CppCalibrate(overrideHz: nat, measured: nat): (cal: CalibrationData)
    ensures cal.cpuFreqHz == CppFrequency(overrideHz, measured)
  {
    Ticks(CppFrequency(overrideHz, measured))
  }

  /** Without an override the C++ ticks are ordered and each is at least
      the 3593 cycles that 1 GHz gives at 278.3 kHz. */
  lemma CppCalibrationSound(overrideHz: nat, measured: nat)
    ensures var cal := CppCalibrate(overrideHz, measured);
      cal.tickMinus1 >= cal.tickCenter >= cal.tickPlus1
    ensures overrideHz == 0 ==> CppCalibrate(overrideHz, measured).tickPlus1 >= 3593
  {
    var f := CppFrequency(overrideHz, measured);
    TicksOrdered(f);
    if overrideHz == 0 {
      DivLowerBound(f, TargetPlus1, 3593);
    }
  }

  /** `end_cycles - start_cycles` in uint64: wraps when the counter did. */
  function CycleDelta(startCycles: nat, endCycles: nat): (d: nat)
    requires startCycles < Uint64Modulus && endCycles < Uint64Modulus
    ensures d < Uint64Modulus
    ensures startCycles <= endCycles ==> d == endCycles - startCycles
    ensures (startCycles + d) % Uint64Modulus == endCycles
  {
    var d := (endCycles - startCycles) % Uint64Modulus;
    DivModUnique(startCycles + d, Uint64Modulus, if startCycles <= endCycles then 0 else 1, endCycles);
    d
  }

  /** C++ `measureCPUFrequency` from its measurements: `(cycles * 1000000) /
      duration` with the product taken modulo 2^64. A zero duration divides
      by zero, which is undefined in C++; it is the `None` result. */
  function CppMeasuredFrequency(startCycles: nat, endCycles: nat, durationUs: nat): (f: Option<nat>)
    requires startCycles < Uint64Modulus && endCycles < Uint64Modulus
    ensures f.None? <==> durationUs == 0
    ensures f.Some? ==> f.value < Uint64Modulus
  {
    if durationUs == 0 then None
    else Some(((CycleDelta(startCycles, endCycles) * 1000000) % Uint64Modulus) / durationUs)
  }

  /** For any cycle count below 2^64 / 10^6 (about 1.8 × 10^13 cycles, far
      beyond a 100 ms sleep on any real clock) the product does not wrap and
      the result is the exact floor of cycles per second. */
  lemma MeasuredFrequencyExact(startCycles: nat, endCycles: nat, durationUs: nat)
    requires startCycles <= endCycles < Uint64Modulus
    requires endCycles - startCycles < Uint64Modulus / 1000000 && durationUs > 0
    ensures CppMeasuredFrequency(startCycles, endCycles, durationUs)
      == Some((endCycles - startCycles) * 1000000 / durationUs)
  {
    var c := endCycles - startCycles;
    assert c * 1000000 < Uint64Modulus by {
      MulMonotone(1000000, c, Uint64Modulus / 1000000 - 1);
    }
    DivModUnique(c * 1000000, Uint64Modulus, 0, c * 1000000);
  }
}
