/** One timing measurement (`measureSingle` in both programs): a baseline
    busy-wait window that counts its polls, an idle window, a loaded window
    that first runs the FFT and quantum loads and then counts its polls, and
    a second idle window. The result is baseline polls minus loaded polls.
    The hardware cycle counter is an injected clock that advances by a
    fixed step on every read; the loads are clock advances by the number of
    cycles they take. */
module Measurement {

  /** A clock step: every read takes at least one cycle. */
  type Step = s: nat | s > 0 witness 1

  /** The injectable cycle counter. */
  class CycleCounter {
    var now: nat
    const step: Step

    constructor (start: nat, step: Step)
      ensures now == start && this.step == step
    {
      now := start;
      this.step := step;
    }

    /** `getCycleCount()`: the current count; reading takes `step` cycles. */
    method Read() returns (t: nat)
      modifies this
      ensures t == old(now) && now == old(now) + step
    {
      t := now;
      now := now + step;
    }

    /** Code that takes `cycles` cycles between two reads. */
    method Spend(cycles: nat)
      modifies this
      ensures now == old(now) + cycles
    {
      now := now + cycles;
    }
  }

  /** How many polls a busy-wait window counts when its first poll finds
      `offset` cycles gone since the window's start and every later poll
      `step` cycles more: the least r with offset + r·step reaching tick. */
  function Polls(offset: nat, tick: nat, step: nat): (r: nat)
    requires step > 0
    ensures offset + r * step >= tick
    ensures r > 0 ==> offset + (r - 1) * step < tick
    decreases if offset < tick then tick - offset else 0
  {
    if offset >= tick then 0 else 1 + Polls(offset + step, tick, step)
  }

  /** A window whose first poll comes later counts no more polls. */
  lemma {:induction false} PollsAntitone(x: nat, y: nat, tick: nat, step: nat)
    requires step > 0 && x <= y
    ensures Polls(y, tick, step) <= Polls(x, tick, step)
    decreases if x < tick then tick - x else 0
  {
    if y < tick {
      PollsAntitone(x + step, y + step, tick, step);
    }
  }

  /** With a clock that advances by one per read, a window of `tick` cycles
      whose first poll is one cycle in counts tick - 1 polls. */
  lemma {:induction false} UnitStepPolls(offset: nat, tick: nat)
    ensures Polls(offset, tick, 1) == if offset < tick then tick - offset else 0
    decreases if offset < tick then tick - offset else 0
  {
    if offset < tick {
      UnitStepPolls(offset + 1, tick);
    }
  }

  /** `while (getCycleCount() - start) < tick { ops += 1 }`: the window that
      started at `start`. Every poll reads the clock once. */
  method BusyWait(clock: CycleCounter, start: nat, tick: nat) returns (ops: nat)
    requires start <= clock.now
    modifies clock
    ensures ops == Polls(old(clock.now) - start, tick, clock.step)
    ensures clock.now == old(clock.now) + (ops + 1) * clock.step
  {
    ops := 0;
    var t := clock.Read();
    while t - start < tick
      invariant start <= t && clock.now == t + clock.step
      invariant t == old(clock.now) + ops * clock.step
      invariant Polls(t - start, tick, clock.step) + ops == Polls(old(clock.now) - start, tick, clock.step)
      decreases tick - (t - start)
    {
      ReadsTake(ops, clock.step);
      ops := ops + 1;
      t := clock.Read();
    }
    ReadsTake(ops, clock.step);
  }

  /** One more read takes one more step. */
  lemma ReadsTake(n: nat, step: nat)
    ensures (n + 1) * step == n * step + step
  {
  }

  /** The reads of one measurement: four start reads and, per window, its
      polls plus the read that ends it. */
  lemma Tally(base: nat, loaded: nat, step: nat)
    ensures 4 * step + 3 * ((base + 1) * step) + (loaded + 1) * step == (4 + 3 * (base + 1) + loaded + 1) * step
  {
  }

  /** The polls a baseline window counts: its first poll comes one read
      after the start read. */
  function BaselinePolls(tick: nat, step: nat): (r: nat)
    requires step > 0
    ensures r == 0 <==> tick <= step
  {
    Polls(step, tick, step)
  }

  /** The polls the loaded window counts: the loads run between the start
      read and the first poll. */
  function LoadedPolls(tick: nat, step: nat, loadCycles: nat): (r: nat)
    requires step > 0
    ensures r <= BaselinePolls(tick, step)
    ensures r == 0 <==> tick <= step + loadCycles
  {
    PollsAntitone(step, step + loadCycles, tick, step);
    Polls(step + loadCycles, tick, step)
  }

  /** One timed window of `measureSingle`: the start read, the loads (none
      for the baseline and idle windows) and the busy-wait that counts its
      polls until `tick` cycles have passed since the start read. */
  method TimedWindow(clock: CycleCounter, tick: nat, fftCycles: nat, quantumCycles: nat) returns (ops: nat)
    modifies clock
    ensures ops == LoadedPolls(tick, clock.step, fftCycles + quantumCycles)
    ensures clock.now == old(clock.now) + clock.step + fftCycles + quantumCycles + (ops + 1) * clock.step
  {
    var start := clock.Read();
    clock.Spend(fftCycles);
    clock.Spend(quantumCycles);
    ops := BusyWait(clock, start, tick);
  }

  /** `measureSingle(tick, level)`: the loads are the FFT load and the
      quantum load, each taking the given number of cycles. */
  method MeasureSingle(clock: CycleCounter, tick: nat, fftCycles: nat, quantumCycles: nat) returns (delta: int)
    modifies clock
    ensures delta == BaselinePolls(tick, clock.step) as int - LoadedPolls(tick, clock.step, fftCycles + quantumCycles) as int
    ensures delta >= 0
    ensures fftCycles + quantumCycles == 0 ==> delta == 0
    ensures clock.now == old(clock.now) + fftCycles + quantumCycles
      + (4 + 3 * (BaselinePolls(tick, clock.step) + 1) + LoadedPolls(tick, clock.step, fftCycles + quantumCycles) + 1) * clock.step
  {
    var baseOps := TimedWindow(clock, tick, 0, 0);
    var idle1 := TimedWindow(clock, tick, 0, 0);
    var loadOps := TimedWindow(clock, tick, fftCycles, quantumCycles);
    var idle2 := TimedWindow(clock, tick, 0, 0);
    delta := baseOps as int - loadOps as int;
    Tally(baseOps, loadOps, clock.step);
  }

  /** With a unit-step clock and no load both windows count tick - 1 polls
      (for tick >= 1), and the measurement is 0. */
  lemma UnitStepMeasurement(tick: nat)
    requires tick >= 1
    ensures BaselinePolls(tick, 1) == tick - 1
    ensures LoadedPolls(tick, 1, 0) == tick - 1
  {
    UnitStepPolls(1, tick);
  }
}
