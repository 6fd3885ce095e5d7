# Quantum transition benchmark — a verified model of its core

The benchmark, written once in Swift and once in C++, measures how much
busy-wait work a CPU loses when a burst of computation runs inside a
window of about 3.6 µs. The window is timed by the cycle counter, and its
length is calibrated to 276.3, 277.3 and 278.3 kHz.

Each measurement runs two windows:
- a baseline window that only counts its polls of the counter;
- a loaded window that first runs an FFT load and a single-qubit
  "quantum" load, and then counts its polls.

The result of a measurement is the difference between the two counts.

Batches of measurements are run for 32 configurations. There are two
kinds:
- 12 static configurations: four FFT load levels × three ticks;
- 20 dynamic configurations: four load levels × five six-step tick
  patterns.

The batches are summarised by a histogram in bins of 20. There are two
run modes:
- the full benchmark files one batch per configuration under a string
  key;
- the scheduled mode waits for second 0 of minutes 29 and 59. It then
  rotates through the 32 configurations for two minutes, appending one
  CSV row per visit.

The model covers the following pieces:

| file | module | what it models |
|---|---|---|
| `common.dfy` | `Common` | Option, powers of two, division facts |
| `bit_reversal.dfy` | `BitReversal` | the in-place bit-reversal permutation of `fft` |
| `fft.dfy` | `Fft` | the butterfly stages, the inverse scaling, both `fft`s and the FFT load |
| `load_level.dfy` | `LoadLevel` | the load levels and the two size/repeat tables |
| `calibration.dfy` | `Calibration` | frequency choice and tick derivation (`calibrateCPU`) |
| `quantum.dfy` | `Quantum` | the qubit class, its gates and `performQuantumLoad` |
| `measurement.dfy` | `Measurement` | `measureSingle` over an injected cycle counter |
| `statistics.dfy` | `Statistics` | binning, histogram, `quickAnalyze`, `analyze` |
| `campaign.dfy` | `Campaign` | the 32 configurations, the `pIdx` decode, keys, the full benchmark |
| `scheduler.dfy` | `Scheduler` | the boundary-scan trigger, the CSV log and the scan loop |

The model abstracts the environment in these ways:
- The FFT keeps its exact index machinery. Its element type is a type
  parameter, and the complex butterfly and the division by n are
  parameters too (`Fft.Arithmetic`).
- Qubit amplitudes are exact reals. The source's decimal constant
  0.70710678118 is kept as written, so the model states what that
  truncated constant does under exact real arithmetic. The rounding of
  each `Double` product is not modelled. RY takes its cosine and sine as
  arguments.
- The cycle counter is a class whose count advances by a fixed step on
  every read. A load is an advance by the number of cycles it takes.
- The wall clock is a parameter. A poll is given the time of day, and a
  scan is given the start times of its visits.
- Each sample's measurement value is an oracle parameter
  (`Campaign.Measure`).

## Model

| member | source | states |
|---|---|---|
| BitReversal.Rev | swift/Sources/YukinekoBenchmark/main.swift:127-139 | the k-bit reversal of an index is below 2^k |
| BitReversal.Advance | cpp/QuantumLib.hpp:259-262 | the value the carry loop leaves in j, from j and the starting bit; its meaning is stated by `ReversedIncrement` and its range by `AdvanceInRange` |
| BitReversal.AdvanceInRange | cpp/QuantumLib.hpp:259-264 | starting with j below n = 2·bit, the carry loop leaves j below n, so `data[j]` in the swap is in bounds |
| BitReversal.ReversedIncrement | cpp/QuantumLib.hpp:259-263 | the carry loop `for (; j & bit; bit >>= 1) j ^= bit; j ^= bit` turns rev(i) into rev(i+1) |
| BitReversal.AdvanceClear | cpp/QuantumLib.hpp:260-262 | when bit b of j is clear, the carry loop stops at once and sets it |
| BitReversal.AdvanceSet | cpp/QuantumLib.hpp:260-261 | when bit b of j is set, the loop clears it and goes on with the next lower bit |
| BitReversal.RevZero | cpp/QuantumLib.hpp:259 | the loop's starting j = 0 is rev(0) |
| BitReversal.RevTop | swift/Sources/YukinekoBenchmark/main.swift:127-139 | rev of i splits into the reversed low bits and the top bit |
| BitReversal.RevInvolution | swift/Sources/YukinekoBenchmark/main.swift:127-139 | reversing twice gives back the index, so swapping only when i < j visits each pair once |
| BitReversal.BitReversed | cpp/QuantumLib.hpp:258-266 | the permutation keeps the length |
| BitReversal.BitReversedInvolution | cpp/QuantumLib.hpp:258-266 | the permutation is its own inverse |
| BitReversal.PartlyReversedStart | cpp/QuantumLib.hpp:259 | the loop invariant holds before index 1 |
| BitReversal.PartlyReversedDone | cpp/QuantumLib.hpp:259-266 | at i = n the invariant is the full bit-reversal permutation |
| BitReversal.SwapStep | cpp/QuantumLib.hpp:264-265 | the conditional swap at i extends the finished part by one index |
| BitReversal.SwapIfBelow | cpp/QuantumLib.hpp:263-264 | `if (i < j) std::swap` extends the finished part of the array by index i, leaves the cells from n on alone and keeps the multiset |
| BitReversal.BitReversedSmall | swift/Sources/YukinekoBenchmark/main.swift:125 | fewer than two elements need no reordering |
| BitReversal.NextReversed | swift/Sources/YukinekoBenchmark/main.swift:130-135 | the inner while loop computes the next reversed index |
| BitReversal.Swap | cpp/QuantumLib.hpp:265 | `std::swap` exchanges two cells and keeps the multiset |
| BitReversal.BitReversePermute | cpp/QuantumLib.hpp:258-266 | in place, the first n cells become their bit-reversal permutation, the rest is untouched and the multiset is kept |
| Fft.Stage | cpp/QuantumLib.hpp:272-281 | one stage keeps the length; position p of a block takes the first (lower half) or second (upper half) butterfly output |
| Fft.PowerOfTwoDivides | cpp/QuantumLib.hpp:269-272 | every stage length divides n, so the blocks tile the array |
| Fft.Butterflied | cpp/QuantumLib.hpp:269-282 | the stages of length 2, 4, …, n keep the length |
| Fft.ButterfliedStep | cpp/QuantumLib.hpp:269 | doubling `len` stays a power of two dividing n, and the remaining stages start with the stage of length len |
| Fft.StageCount | cpp/QuantumLib.hpp:269 | the len-loop stops after log2 n stages |
| Fft.BlockStep | cpp/QuantumLib.hpp:274-279 | one butterfly extends both finished halves of a block by one position |
| Fft.Butterfly | cpp/QuantumLib.hpp:275-278 | the two writes `u + v`, `u − v` extend both finished halves of the block by one position and leave the cells from n on alone |
| Fft.BlockStart | cpp/QuantumLib.hpp:273-274 | before the k-loop the block is untouched and the earlier blocks are done |
| Fft.BlockDone | cpp/QuantumLib.hpp:274-280 | after len/2 butterflies the block is done and the later blocks are untouched |
| Fft.ButterflyBlock | cpp/QuantumLib.hpp:273-280 | the k-loop finishes the block at i and touches nothing else |
| Fft.ButterflyStage | swift/Sources/YukinekoBenchmark/main.swift:147-158 | the i-loop over blocks yields exactly `Stage` of the old contents |
| Fft.Butterflies | swift/Sources/YukinekoBenchmark/main.swift:142-160 | the len-loop runs log2 n stages of lengths 2^1 … 2^log2 n and yields `Butterflied` of the old contents |
| Fft.Scaled | cpp/QuantumLib.hpp:284-289 | the division keeps the length |
| Fft.ScaleAll | cpp/QuantumLib.hpp:284-289 | the closing loop divides every element of the prefix by n |
| Fft.Transformed | cpp/QuantumLib.hpp:257-290 | the C++ transform keeps the length |
| Fft.SwiftTransformed | swift/Sources/YukinekoBenchmark/main.swift:123-168 | the Swift transform keeps the length |
| Fft.BitReversedMoves | cpp/QuantumLib.hpp:264-265 | the element at i ends at rev(i) |
| Fft.ButterfliedSingle | cpp/QuantumLib.hpp:269 | one element has no stage |
| Fft.TransformsAgree | swift/Sources/YukinekoBenchmark/main.swift:125 | the two transforms agree except on a one-element inverse, where C++ still divides by 1 and Swift returns early |
| Fft.CppFft | cpp/QuantumLib.hpp:257-290 | in place, the prefix becomes `Transformed` of its old contents and the rest of the buffer is untouched |
| Fft.SwiftFft | swift/Sources/YukinekoBenchmark/main.swift:123-168 | in place, the array becomes `SwiftTransformed` of its old contents |
| Fft.RoundTrips | cpp/QuantumLib.hpp:307-310 | `repeats` forward/inverse pairs keep the length |
| Fft.Signal | cpp/QuantumLib.hpp:302-304 | the initial buffer has fft_size samples |
| Fft.CppRoundTrips | cpp/QuantumLib.hpp:307-310 | the repeat loop yields `RoundTrips` of the prefix and leaves the rest alone |
| Fft.PerformFftWithSize | cpp/QuantumLib.hpp:298-311 | the 256-cell buffer holds the round-tripped signal in its first fft_size cells and default values after |
| Fft.SwiftRoundTrips | swift/Sources/YukinekoBenchmark/main.swift:184-187 | the Swift repeat loop yields `RoundTrips` with the Swift transform |
| Fft.CppPerformFftLoad | cpp/QuantumLib.hpp:323-338 | the load is the sized round trips with the C++ table's size and repeats |
| Fft.SwiftPerformFftLoad | swift/Sources/YukinekoBenchmark/main.swift:172-188 | the load is the round trips with the Swift table's size and repeats on an exactly-sized buffer |
| LoadLevel.AllLevelsComplete | swift/Sources/YukinekoBenchmark/main.swift:10-14 | `allCases` lists the four levels once each |
| LoadLevel.RawValue | swift/Sources/YukinekoBenchmark/main.swift:11-14 | the raw value is the two-digit percentage followed by '%' |
| LoadLevel.RawValueInjective | swift/Sources/YukinekoBenchmark/main.swift:11-14 | distinct levels have distinct raw values |
| LoadLevel.Label | swift/Sources/YukinekoBenchmark/main.swift:32-39 | every label starts with the raw value |
| LoadLevel.SwiftFftSize | swift/Sources/YukinekoBenchmark/main.swift:25-30 | the Swift sizes are powers of two within the 256-cell bound |
| LoadLevel.SwiftRepeats | swift/Sources/YukinekoBenchmark/main.swift:16-23 | the Swift repeat counts lie between 4 and 8 |
| LoadLevel.CppFftSize | cpp/QuantumLib.hpp:323-338 | the C++ sizes are powers of two that fit the 256-cell buffer |
| LoadLevel.CppRepeats | cpp/QuantumLib.hpp:323-338 | the C++ repeat counts lie between 3 and 5 |
| LoadLevel.TablesCompared | cpp/QuantumLib.hpp:332-335 | the sizes agree; the repeats agree exactly at 75% and 80%, and Swift's are twice C++'s at 85% and 90% |
| LoadLevel.WorkIncreases | swift/Sources/YukinekoBenchmark/main.swift:16-30 | in both tables a higher level means strictly more size × repeats |
| Calibration.Tick | swift/Sources/YukinekoBenchmark/main.swift:76-80 | the tick is the whole number of cycles in one target period: t·target ≤ f < (t+1)·target |
| Calibration.DivAntitone | cpp/QuantumLib.hpp:179-184 | a lower target frequency never gives a smaller tick |
| Calibration.Ticks | cpp/QuantumLib.hpp:215-221 | the three ticks are derived from the chosen frequency |
| Calibration.TicksOrdered | cpp/QuantumLib.hpp:215-221 | tick −1 ≥ tick 0 ≥ tick +1, and all are positive once f ≥ 278300 |
| Calibration.SwiftFrequency | swift/Sources/YukinekoBenchmark/main.swift:87 | a measurement below 20 MHz is replaced by 24 MHz; the result is at least 20 MHz and equals the measurement exactly when that is at least 20 MHz |
| Calibration.SwiftCalibrate | swift/Sources/YukinekoBenchmark/main.swift:83-95 | the calibration carries the chosen frequency |
| Calibration.SwiftCalibrationSound | swift/Sources/YukinekoBenchmark/main.swift:83-95 | the Swift ticks are always ordered and at least 1 |
| Calibration.CppFrequency | cpp/QuantumLib.hpp:196-213 | a positive override wins; otherwise the measurement if above 1 GHz, else 2.4 GHz |
| Calibration.CppCalibrate | cpp/QuantumLib.hpp:196-224 | the calibration carries the chosen frequency |
| Calibration.CppCalibrationSound | cpp/QuantumLib.hpp:196-224 | the C++ ticks are ordered, and without an override tick +1 is at least 3593 |
| Calibration.CycleDelta | cpp/QuantumLib.hpp:165 | unsigned 64-bit subtraction: the exact difference when there is no wrap, and always start + d ≡ end mod 2^64 |
| Calibration.CppMeasuredFrequency | cpp/QuantumLib.hpp:151-168 | no result exactly when the duration is 0; otherwise a 64-bit value |
| Calibration.MeasuredFrequencyExact | cpp/QuantumLib.hpp:165-167 | below 2^64/10^6 cycles the 64-bit product does not wrap and the result is floor(cycles·10^6 / duration) |
| Quantum.PauliX | swift/Sources/YukinekoBenchmark/main.swift:238-242 | X exchanges the amplitudes |
| Quantum.PauliZ | cpp/QuantumLib.hpp:109-112 | Z negates beta and keeps alpha |
| Quantum.PhaseS | cpp/QuantumLib.hpp:114 | S multiplies beta by i and keeps alpha |
| Quantum.PhaseT | cpp/QuantumLib.hpp:116-121 | T keeps alpha |
| Quantum.Hadamard | cpp/QuantumLib.hpp:97-105 | `applyHadamard` with the decimal constant: alpha becomes (alpha + beta)·c and beta becomes (alpha − beta)·c; `HadamardScalesNorm` and `HadamardTwice` state its effect |
| Quantum.RotateY | cpp/QuantumLib.hpp:123-132 | `applyRY` given cos and sin of the half angle; a zero angle leaves the state unchanged |
| Quantum.XTwiceIsIdentity | cpp/QuantumLib.hpp:107 | X is an involution |
| Quantum.ZTwiceIsIdentity | cpp/QuantumLib.hpp:109-112 | Z is an involution |
| Quantum.STwiceIsZ | cpp/QuantumLib.hpp:114 | S² = Z |
| Quantum.SFourTimesIsIdentity | swift/Sources/YukinekoBenchmark/main.swift:248-250 | S⁴ = I |
| Quantum.ZCommutesWithS | swift/Sources/YukinekoBenchmark/main.swift:244-250 | Z and S commute |
| Quantum.ExactGatesKeepNorm | cpp/QuantumLib.hpp:107-114 | X, Z and S keep \|alpha\|² + \|beta\|² |
| Quantum.HadamardScalesNorm | cpp/QuantumLib.hpp:97-105 | the rounded Hadamard scales \|alpha\|² + \|beta\|² by 2·0.70710678118² |
| Quantum.PhaseTScalesBeta | cpp/QuantumLib.hpp:116-121 | the rounded T scales \|beta\|² by the same factor |
| Quantum.RotateYKeepsNorm | cpp/QuantumLib.hpp:123-132 | RY keeps \|alpha\|² + \|beta\|² whenever cos² + sin² = 1 |
| Quantum.HadamardTwice | swift/Sources/YukinekoBenchmark/main.swift:224-236 | H² is the same factor times the identity |
| Quantum.GroverBlock | cpp/QuantumLib.hpp:358-363 | Z, H, X, Z, X, H in the loop body's order; `GroverBlockRotates` states its effect |
| Quantum.GroverBlockRotates | cpp/QuantumLib.hpp:357-365 | one Z H X Z X H block maps (alpha, beta) to g·(beta, −alpha) |
| Quantum.QuarterTurnTwice | swift/Sources/YukinekoBenchmark/main.swift:296-305 | two g-scaled quarter turns give −g² times the state |
| Quantum.GroverTwiceNegates | swift/Sources/YukinekoBenchmark/main.swift:296-305 | two blocks negate the state, scaled by g² |
| Quantum.WalkPairIsGroverBlock | swift/Sources/YukinekoBenchmark/main.swift:288-294 | two X/H steps of the first loop equal one Grover block |
| Quantum.QftShift | cpp/QuantumLib.hpp:368 | the shift `i % 8 + 1` lies between 1 and 8 |
| Quantum.QftDivisor | swift/Sources/YukinekoBenchmark/main.swift:309 | `1 << (i % 8 + 1)` is a power of two from 2 to 256, so it never overflows |
| Quantum.HadamardWalk | cpp/QuantumLib.hpp:351-355 | `count` iterations of X then H, the first loop; `RunHadamardWalk` is proved against it |
| Quantum.GroverLoop | cpp/QuantumLib.hpp:357-365 | `count` Grover blocks, the second loop; `RunGroverLoop` is proved against it |
| Quantum.QftLoop | cpp/QuantumLib.hpp:367-373 | iterations i … count − 1 of RY(π / 2^(i%8+1)), S, T, the third loop; `RunQftLoop` is proved against it |
| Quantum.QuantumLoadState | swift/Sources/YukinekoBenchmark/main.swift:285-317 | H on \|0>, then the three loops with 150, 75 and 150 iterations; `PerformQuantumLoad` is proved against it |
| Quantum.Qubit.constructor | cpp/QuantumLib.hpp:95 | a new qubit is \|0> |
| Quantum.Qubit.ApplyHadamard | cpp/QuantumLib.hpp:97-105 | the state becomes `Hadamard` of the old one |
| Quantum.Qubit.ApplyX | cpp/QuantumLib.hpp:107 | the state becomes `PauliX` of the old one |
| Quantum.Qubit.ApplyZ | cpp/QuantumLib.hpp:109-112 | the state becomes `PauliZ` of the old one |
| Quantum.Qubit.ApplyS | cpp/QuantumLib.hpp:114 | the state becomes `PhaseS` of the old one |
| Quantum.Qubit.ApplyT | cpp/QuantumLib.hpp:116-121 | the state becomes `PhaseT` of the old one |
| Quantum.Qubit.ApplyRY | cpp/QuantumLib.hpp:123-132 | the state becomes `RotateY` of the old one |
| Quantum.Qubit.GetAlpha | cpp/QuantumLib.hpp:140 | returns alpha |
| Quantum.Qubit.GetBeta | cpp/QuantumLib.hpp:141 | returns beta |
| Quantum.RunHadamardWalk | cpp/QuantumLib.hpp:351-355 | the first loop applies X then H `count` times |
| Quantum.ApplyGroverBlock | cpp/QuantumLib.hpp:358-363 | applying Z, H, X, Z, X, H in turn leaves the qubit in `GroverBlock` of its old state |
| Quantum.RunGroverLoop | cpp/QuantumLib.hpp:357-365 | the second loop applies `count` Grover blocks |
| Quantum.RunQftLoop | cpp/QuantumLib.hpp:367-373 | the third loop applies RY(π / 2^(i%8+1)), S, T for i = 0 … count−1 |
| Quantum.PerformQuantumLoad | swift/Sources/YukinekoBenchmark/main.swift:285-317 | H, 150 walk steps, 75 Grover blocks and 150 QFT steps from \|0> |
| Measurement.CycleCounter.constructor | cpp/QuantumLib.hpp:26-39 | the counter starts at the given count with the given step |
| Measurement.CycleCounter.Read | cpp/QuantumLib.hpp:26-39 | a read returns the count and advances it by one step |
| Measurement.CycleCounter.Spend | cpp/quantum_benchmark.cpp:31-33 | a load advances the count by its cycles |
| Measurement.Polls | cpp/quantum_benchmark.cpp:21-24 | the least number of polls whose offsets reach the tick |
| Measurement.PollsAntitone | cpp/quantum_benchmark.cpp:31-38 | a window whose first poll comes later counts no more polls |
| Measurement.UnitStepPolls | swift/Sources/YukinekoBenchmark/main.swift:323-327 | with a one-cycle step, a window counts tick − offset polls |
| Measurement.BaselinePolls | cpp/quantum_benchmark.cpp:18-23 | the baseline window's polls; none exactly when the tick is no longer than one read |
| Measurement.LoadedPolls | cpp/quantum_benchmark.cpp:30-38 | the loaded window's polls: never more than the baseline's, and none exactly when one read plus the load already reach the tick |
| Measurement.TimedWindow | cpp/quantum_benchmark.cpp:18-42 | one window (start read, loads, busy-wait) counts `LoadedPolls` of its load, and advances the counter by one read, the load cycles and its polls plus one reads |
| Measurement.BusyWait | swift/Sources/YukinekoBenchmark/main.swift:323-327 | the counting loop returns `Polls` of its start offset, and the counter has advanced by one step per read: polls + 1 reads |
| Measurement.MeasureSingle | cpp/quantum_benchmark.cpp:16-45 | the result is baseline polls − loaded polls; it is never negative, and it is 0 when the loads take no cycles; the counter ends advanced by the load cycles plus one step for each of the four start reads and, per window, its polls plus the read that ends it |
| Measurement.UnitStepMeasurement | swift/Sources/YukinekoBenchmark/main.swift:320-348 | with a one-cycle step and no load both windows count tick − 1 |
| Statistics.TruncDiv | cpp/quantum_benchmark.cpp:71 | `/` rounds toward zero, for negative values too |
| Statistics.BinOf | swift/Sources/YukinekoBenchmark/main.swift:368 | `(value / 20) * 20` is a multiple of 20 within 20 of the value, on the side of zero |
| Statistics.BinNearZero | cpp/quantum_benchmark.cpp:71 | −19 … 19 all fall into bin 0 |
| Statistics.IncrementOrdered | cpp/quantum_benchmark.cpp:72 | `histogram[bin]++` keeps the map ordered by bin |
| Statistics.IncrementPositive | cpp/quantum_benchmark.cpp:72 | all counts stay positive |
| Statistics.IncrementTotal | cpp/quantum_benchmark.cpp:72 | the total grows by one |
| Statistics.IncrementLookup | cpp/quantum_benchmark.cpp:72 | exactly the bin's count grows by one |
| Statistics.Increment | cpp/quantum_benchmark.cpp:72 | `histogram[bin]++` on the ordered map: an absent bin is inserted in order with count 1, a present one is incremented; its properties are the four `Increment…` lemmas |
| Statistics.LookupFinds | cpp/quantum_benchmark.cpp:69-73 | an entry's bin looks up its own count |
| Statistics.CountOf | cpp/quantum_benchmark.cpp:69-73 | the number of values in a bin, the reference count the histogram is checked against; never more than the batch size |
| Statistics.HistogramOf | cpp/quantum_benchmark.cpp:69-73 | the histogram the counting loop builds, one `Increment` per value in order; `HistogramCorrect` and `HistogramEntries` state what it holds |
| Statistics.HistogramCorrect | cpp/quantum_benchmark.cpp:69-73 | the histogram is ordered, its counts are positive and total the batch size, and every bin's count is the number of values in it |
| Statistics.HistogramEntries | swift/Sources/YukinekoBenchmark/main.swift:366-370 | the histogram has an entry exactly for the bins that receive a value |
| Statistics.BuildHistogram | cpp/quantum_benchmark.cpp:69-73 | the loop builds that histogram |
| Statistics.InsertByCountPermutes | cpp/quantum_benchmark.cpp:75-77 | insertion adds exactly the entry |
| Statistics.InsertByCountSorted | cpp/quantum_benchmark.cpp:75-77 | insertion keeps counts non-increasing |
| Statistics.SortByCount | cpp/quantum_benchmark.cpp:75-77 | the sort is a permutation of the histogram with non-increasing counts |
| Statistics.PeakIsMaximal | cpp/quantum_benchmark.cpp:79-80 | the first sorted entry has the largest count, and it is its bin's own count |
| Statistics.QuickAnalyze | cpp/quantum_benchmark.cpp:55-84 | empty data gives bin 0 and count 0; otherwise the peak bin has the largest count of any bin, that count is its number of values, and the percent is count / size · 100 |
| Statistics.TotalPositive | swift/Sources/YukinekoBenchmark/main.swift:372-375 | a non-empty histogram has a positive total |
| Statistics.MinOf | cpp/quantum_benchmark.cpp:99 | the minimum is an element and no element is smaller |
| Statistics.MaxOf | cpp/quantum_benchmark.cpp:100 | the maximum is an element and no element is larger |
| Statistics.PermutedEntries | cpp/quantum_benchmark.cpp:120-122 | every sorted entry carries its bin's true count |
| Statistics.LeftOutBelow | cpp/quantum_benchmark.cpp:116-120 | a bin left out of the first k has no larger count than entry k − 1 |
| Statistics.PrefixEntries | cpp/quantum_benchmark.cpp:120-122 | each of the first k sorted entries carries its bin's true, positive count |
| Statistics.PrefixLeavesOutLess | cpp/quantum_benchmark.cpp:116-120 | a bin outside the first k sorted entries has no larger count than the last of them |
| Statistics.PrefixDistinct | cpp/quantum_benchmark.cpp:116-122 | no bin appears twice among the first k count-sorted entries, because the map has each bin once |
| Statistics.PrefixIsTop | swift/Sources/YukinekoBenchmark/main.swift:404 | the first min(10, #bins) sorted entries are a top-ten list: distinct bins with their true counts, count-sorted, none left out with more |
| Statistics.TopBins | cpp/quantum_benchmark.cpp:108-126 | the printed list is min(10, #bins) distinct bins with their counts, in non-increasing order, and no other bin has more |
| Statistics.SwiftAnalyze | swift/Sources/YukinekoBenchmark/main.swift:381-410 | empty data gives the range [0, 0] and no bins; otherwise the range holds every value and its ends are values; the top list as above |
| Statistics.CppAnalyze | cpp/quantum_benchmark.cpp:86-128 | for non-empty data the range holds every value and its ends are values; the top list as above |
| Campaign.PatternTicks | cpp/quantum_benchmark.cpp:209-224 | every dynamic pattern has six ticks |
| Campaign.PatternsCoverTicks | swift/Sources/YukinekoBenchmark/main.swift:450-486 | every pattern uses ticks −1 and +1; only Alternating and Block skip tick 0 |
| Campaign.LevelIndex | cpp/quantum_benchmark.cpp:191-194 | a level's index in `fftConfigs` |
| Campaign.TickIndex | cpp/quantum_benchmark.cpp:201-202 | a tick's index in `tickConfigs` |
| Campaign.TickName | cpp/quantum_benchmark.cpp:201-202 | the names "-1", "0" and "+1" of `tickConfigs` |
| Campaign.TickNameInjective | cpp/quantum_benchmark.cpp:201-202 | distinct ticks have distinct names |
| Campaign.PatternIndex | cpp/quantum_benchmark.cpp:209-224 | a pattern's index in `dynamicPatterns` |
| Campaign.PatternName | cpp/quantum_benchmark.cpp:209-224 | the names of `dynamicPatterns` in declaration order |
| Campaign.PatternNameInjective | cpp/quantum_benchmark.cpp:209-224 | distinct patterns have distinct names |
| Campaign.Decode | cpp/quantum_benchmark.cpp:273-292 | pIdx < 12 decodes to a static configuration, and every other pIdx to a dynamic one; every array index is in bounds |
| Campaign.Encode | cpp/quantum_benchmark.cpp:273-292 | every configuration has a position below 32 |
| Campaign.DecodeEncode | cpp/quantum_benchmark.cpp:275-276 | decoding a configuration's position gives the configuration back |
| Campaign.EncodeDecode | cpp/quantum_benchmark.cpp:287-289 | every position below 32 is the position of its decoding, so the decode is a bijection |
| Campaign.ConfigAt | cpp/quantum_benchmark.cpp:259 | `patternIndex % 32` selects the configuration at that position |
| Campaign.RotationCoversAll | swift/Sources/YukinekoBenchmark/main.swift:544 | any 32 consecutive visits cover every configuration |
| Campaign.SampleTickPeriodic | cpp/quantum_benchmark.cpp:295 | `ticks[i % 6]` repeats every six samples |
| Campaign.SampleTick | cpp/quantum_benchmark.cpp:295 | the tick of sample i: the static tick, or `ticks[i % 6]` of the pattern; `SampleTickPeriodic` states its period |
| Campaign.Key | cpp/quantum_benchmark.cpp:408 | keys are at least 12 characters long |
| Campaign.KeyInjective | swift/Sources/YukinekoBenchmark/main.swift:698-724 | distinct configurations have distinct keys, so no batch overwrites another |
| Campaign.DistinctKeys | cpp/quantum_benchmark.cpp:408 | two different positions below 32 are filed under different keys |
| Campaign.BuildConfigList | swift/Sources/YukinekoBenchmark/main.swift:518-541 | the Swift list has 32 entries, and entry p is the C++ decoding of p |
| Campaign.Samples | cpp/quantum_benchmark.cpp:281-284 | a batch has `iterations` samples |
| Campaign.CollectSamples | swift/Sources/YukinekoBenchmark/main.swift:729-732 | the loop appends sample i, measured with the static tick or `pattern[i % 6]` |
| Campaign.FileNext | cpp/quantum_benchmark.cpp:417 | `results[key] = data` keeps the batches filed before |
| Campaign.RunStaticBatches | cpp/quantum_benchmark.cpp:406-420 | part 1 files the 12 static batches |
| Campaign.RunDynamicBatches | cpp/quantum_benchmark.cpp:433-449 | part 2 adds the 20 dynamic batches |
| Campaign.RunFullBenchmark | swift/Sources/YukinekoBenchmark/main.swift:627-765 | all 32 keys are present, each with its batch of 1,000,000 samples, and there are no other keys, so every lookup of the analysis finds its data |
| Scheduler.Hour | cpp/quantum_benchmark.cpp:153-160 | the hour is below 24 |
| Scheduler.TwoDigitsInjective | cpp/quantum_benchmark.cpp:234 | `%02d` is injective below 100 |
| Scheduler.TimeStr | cpp/quantum_benchmark.cpp:233-235 | `timeStr` is five characters, "mm:ss" |
| Scheduler.TimeStrSame | swift/Sources/YukinekoBenchmark/main.swift:500 | two times have equal `timeStr` exactly when minute and second agree |
| Scheduler.IsBoundaryScan | cpp/quantum_benchmark.cpp:237-238 | second 0 of minute 29 or 59; `BoundaryMinuteIsNext` and `FiresOnlyAtBoundaries` state its role |
| Scheduler.Trigger | cpp/quantum_benchmark.cpp:238-241 | a poll fires iff second is 0, minute is 29 or 59 and `timeStr` differs from `lastRunTime`; firing records `timeStr`, otherwise `lastRunTime` is kept |
| Scheduler.FirstBoundaryFires | swift/Sources/YukinekoBenchmark/main.swift:488 | the initial empty `lastRunTime` never blocks a boundary |
| Scheduler.NoRefire | swift/Sources/YukinekoBenchmark/main.swift:505-506 | after firing, another poll in the same minute and second does not fire, but the other boundary does |
| Scheduler.BoundaryMinute | cpp/quantum_benchmark.cpp:243 | 30 for minute 29, otherwise 0 |
| Scheduler.BoundaryMinuteIsNext | swift/Sources/YukinekoBenchmark/main.swift:509 | at a boundary it is the next minute on the clock |
| Scheduler.FireCount | swift/Sources/YukinekoBenchmark/main.swift:495-596 | a run of polls fires at most once per poll |
| Scheduler.NoFireAfter | cpp/quantum_benchmark.cpp:240-241 | once an instant is recorded, no poll in it fires |
| Scheduler.AtMostOncePerInstant | swift/Sources/YukinekoBenchmark/main.swift:503-506 | however many 100 ms polls fall in one instant, at most one fires |
| Scheduler.FiresOnlyAtBoundaries | cpp/quantum_benchmark.cpp:238-240 | a run that fires contains a boundary instant |
| Scheduler.RowTime | cpp/quantum_benchmark.cpp:263-264 | the hour and minute columns name the minute in which the visit started |
| Scheduler.SwiftRowTime | swift/Sources/YukinekoBenchmark/main.swift:567 | as written: the trigger's hour with the visit's minute |
| Scheduler.SwiftRowTimeWithinHour | swift/Sources/YukinekoBenchmark/main.swift:508 | while the hour has not turned, the Swift columns equal `RowTime` |
| Scheduler.SwiftRowTimeAcrossHour | swift/Sources/YukinekoBenchmark/main.swift:566-567 | a visit at 11:00:30 in a scan triggered at 10:59:00 is logged as 10:00 |
| Scheduler.CsvLog.constructor | cpp/quantum_benchmark.cpp:176 | the log is the file as found |
| Scheduler.CsvLog.OpenForAppend | cpp/quantum_benchmark.cpp:176-181 | the header is added only to an empty file; an existing file is kept, and a well-formed file stays well-formed |
| Scheduler.CsvLog.Overwrite | swift/Sources/YukinekoBenchmark/main.swift:435-437 | the file becomes the header alone |
| Scheduler.CsvLog.Append | cpp/quantum_benchmark.cpp:303-309 | exactly one row is added at the end; earlier lines are unchanged |
| Scheduler.ScanLoggedStep | swift/Sources/YukinekoBenchmark/main.swift:569-573 | appending visit n's row extends a correct log of visits 0 … n−1 |
| Scheduler.ScheduledMode.constructor | swift/Sources/YukinekoBenchmark/main.swift:488 | `lastRunTime` starts empty |
| Scheduler.ScheduledMode.Poll | cpp/quantum_benchmark.cpp:229-243 | one loop iteration fires exactly as `Trigger` says and updates `lastRunTime` the same way; a scan logs its visits, and otherwise the log is unchanged |
| Scheduler.ScheduledMode.BoundaryScan | cpp/quantum_benchmark.cpp:258-319 | visit i logs one row, in order, with its time, configuration `i % 32` and the quick statistics of its 30,000 samples; earlier lines are kept |

## Left out

Each line names what the model does not cover and why.

- Floating point is not modelled.
  - The FFT's complex arithmetic, twiddle factors and final division
    are abstract parameters.
  - Means, variances and standard deviations in `quickAnalyze` and
    `analyze` are left out.
  - `cos`/`sin` for RY are parameters.
  - The `Double` arithmetic of the tick derivation is idealised as exact
    floor(f / target).
  - The peak percentage is an exact real.
- Calibration.Tick: does not model binary floating-point rounding of
  f·(1e6/target/1e6). Where rounding pushes the product across an
  integer, the source's tick can differ by one.
- The Swift `measureCPUFrequency` is not modelled. It computes in
  `Double` from a `Date` interval; its result is the `measured`
  parameter of `SwiftFrequency`.
- The C++ `measureCPUFrequency` is modelled from its inputs. The sleep
  and the clock reads are parameters.
- Hardware and timing effects are left out:
  - the cycle counter's value, `nop`, `setHighPriority`;
  - the 72,000,000-cycle warm-up of the full benchmark;
  - the 100 ms poll sleep.
  The counter is an injected clock with a fixed step per read.
- Measurement.MeasureSingle does not model the `static_cast<int>` /
  `Int(...)` conversion of the poll counts. Counts are unbounded naturals,
  so a count above 2^31 − 1 is not truncated.
- How many visits fit into the 120-second scan depends on timing. A scan
  is given the start times of its visits.
- The measurement value of each sample is an oracle parameter. The model
  does not say how it relates to real load, only where each sample's tick
  and load level come from.
- The qubit's random `measure()` at the end of the quantum load is left
  out. Its result is discarded in both programs.
- Console output is left out: all printing, progress lines, the
  `lastPrintedMinute` bookkeeping and the text of the analysis report.
- CSV formatting is abstract:
  - rows are values (timestamp, hour, minute, configuration, statistics);
  - the date in the file name and the `DateFormatter`/`put_time` text are
    not modelled;
  - the Swift `FileHandle(forWritingAtPath:)` returning nil (file
    missing) is not modelled; the header write just before creates the
    file.
- Scheduler.CsvLog.Append: always adds the row. In C++ a
  `std::ofstream` that fails to open is not checked, so the row is
  silently dropped; writing the log is best effort, and that failure path
  is not modelled.
- The C++ header check relies on `tellp()` reporting the file size of an
  append-mode stream. The model takes the intended reading: the header
  goes only into an empty file.
- Times of day are whole seconds below 86400. The leap second 60 that
  `tm_sec` can report is not modelled.
- Statistics.SortByCount: does not model the C++ `std::sort` or Swift
  `sorted` algorithm itself. It is an insertion sort over a sequence with
  the same promise: a permutation with non-increasing counts. Neither
  source fixes the order among equal counts, and so neither does the
  model, beyond the permutation.
- The Swift histogram is a `Dictionary`, which is unordered. The model
  builds the ordered association list of the C++ `std::map`. Only the
  count-sorted result is used by either program.
- Calibration.CycleDelta: the subtraction of the cycle counts wraps
  modulo 2^64, as `uint64_t` does. In the Swift program the same `-`
  would trap on wrap-around; that path is not modelled.

## Findings

| source | as written | input that shows it | evidently intended | confidence | as-written member | corrected member |
|---|---|---|---|---|---|---|
| swift/Sources/YukinekoBenchmark/main.swift:567 | the CSV row's `hour` column is the hour read when the scan was triggered (line 508), while its `minute` column is read at each visit (line 547) | a scan triggered at 10:59:00 with a visit starting at 11:00:30 writes hour 10, minute 0: 10:00, an hour before the visit | the hour and minute of the visit itself, as the C++ program writes (`mHour`, `mMinute`, quantum_benchmark.cpp:263-264) | medium — not executed | Scheduler.SwiftRowTime (shown by Scheduler.SwiftRowTimeAcrossHour) | Scheduler.RowTime (the visit lies in the minute the row names), used by Scheduler.ScheduledMode.BoundaryScan |

The two programs also treat an existing log of the same day differently,
and the model keeps the difference:
- the C++ program keeps the earlier rows (`Scheduler.CsvLog.OpenForAppend`);
- the Swift program replaces the file with a fresh header on every start
  (`Scheduler.CsvLog.Overwrite`).
