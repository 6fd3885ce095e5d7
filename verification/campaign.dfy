/** The measurement campaign: the 32 configurations (12 static ones, four
    load levels × three ticks, then 20 dynamic ones, four load levels ×
    five tick patterns), the decoding of a rotating pattern index into a
    configuration, the tick each sample of a configuration uses, the keys
    the full benchmark files its batches under, and the full benchmark
    itself. */
module Campaign {
  import opened Calibration
  import opened LoadLevel

  /** The three static ticks, named "-1", "0" and "+1" in the source. */
  datatype TickChoice = Minus1 | Center | Plus1

  /** `tickConfigs` in its declaration order. */
  const TickChoices: seq<TickChoice> := [Minus1, Center, Plus1]

  function TickName(t: TickChoice): string
  {
    match t
    case Minus1 => "-1"
    case Center => "0"
    case Plus1 => "+1"
  }

  /** The calibrated cycle count a tick choice stands for. */
  function TickOf(cal: CalibrationData, t: TickChoice): nat
  {
    match t
    case Minus1 => cal.tickMinus1
    case Center => cal.tickCenter
    case Plus1 => cal.tickPlus1
  }

  /** The five dynamic patterns. */
  datatype Pattern = Original | Alternating | Block | Mixed | Sweep

  /** `dynamicPatterns` in its declaration order. */
  const Patterns: seq<Pattern> := [Original, Alternating, Block, Mixed, Sweep]

  function PatternName(p: Pattern): string
  {
    match p
    case Original => "Original"
    case Alternating => "Alternating"
    case Block => "Block"
    case Mixed => "Mixed"
    case Sweep => "Sweep"
  }

  /** The six ticks a dynamic pattern cycles through. */
  function PatternTicks(p: Pattern): (ticks: seq<TickChoice>)
    ensures |ticks| == 6
  {
    match p
    case Original => [Minus1, Minus1, Center, Plus1, Plus1, Center]
    case Alternating => [Plus1, Minus1, Plus1, Minus1, Plus1, Minus1]
    case Block => [Plus1, Plus1, Plus1, Minus1, Minus1, Minus1]
    case Mixed => [Center, Minus1, Plus1, Center, Plus1, Minus1]
    case Sweep => [Minus1, Center, Plus1, Plus1, Center, Minus1]
  }

  /** Every pattern visits both outer ticks; all but Alternating and Block
      also the centre one. */
  lemma PatternsCoverTicks(p: Pattern)
    ensures Minus1 in PatternTicks(p) && Plus1 in PatternTicks(p)
    ensures Center in PatternTicks(p) <==> p != Alternating && p != Block
  {
  }

  /** One configuration of the campaign. */
  datatype Config =
    | Static(level: FftLoadLevel, tick: TickChoice)
    | Dynamic(level: FftLoadLevel, pattern: Pattern)

  function LevelIndex(l: FftLoadLevel): (i: nat)
    ensures i < 4 && AllLevels[i] == l
  {
    match l
    case Load75 => 0
    case Load80 => 1
    case Load85 => 2
    case Load90 => 3
  }

  function TickIndex(t: TickChoice): (i: nat)
    ensures i < 3 && TickChoices[i] == t
  {
    match t
    case Minus1 => 0
    case Center => 1
    case Plus1 => 2
  }

  function PatternIndex(p: Pattern): (i: nat)
    ensures i < 5 && Patterns[i] == p
  {
    match p
    case Original => 0
    case Alternating => 1
    case Block => 2
    case Mixed => 3
    case Sweep => 4
  }

  /** The C++ decode of `pIdx`: 0..11 are static, `fftIdx = pIdx / 3` and
      `tickIdx = pIdx % 3`; 12..31 are dynamic, `fftIdx = (pIdx - 12) / 5`
      and `patIdx = (pIdx - 12) % 5`. Every array index is in bounds. */
  function Decode(pIdx: nat): (c: Config)
    requires pIdx < 32
    ensures pIdx < 12 <==> c.Static?
  {
    if pIdx < 12 then Static(AllLevels[pIdx / 3], TickChoices[pIdx % 3])
    else
      var dynIdx := pIdx - 12;
      Dynamic(AllLevels[dynIdx / 5], Patterns[dynIdx % 5])
  }

  /** The position of a configuration in the list. */
  function Encode(c: Config): (pIdx: nat)
    ensures pIdx < 32
  {
    match c
    case Static(l, t) => 3 * LevelIndex(l) + TickIndex(t)
    case Dynamic(l, p) => 12 + 5 * LevelIndex(l) + PatternIndex(p)
  }

  /** Decoding is a bijection between 0..31 and the 32 configurations. */
  lemma DecodeEncode(c: Config)
    ensures Decode(Encode(c)) == c
  {
    match c
    case Static(l, t) =>
      var f, k := LevelIndex(l), TickIndex(t);
      DivMod(3 * f + k, 3, f, k);
    case Dynamic(l, p) =>
      var f, k := LevelIndex(l), PatternIndex(p);
      DivMod(5 * f + k, 5, f, k);
  }

  lemma EncodeDecode(pIdx: nat)
    requires pIdx < 32
    ensures Encode(Decode(pIdx)) == pIdx
  {
  }

  lemma DivMod(x: nat, d: nat, q: nat, r: nat)
    requires d > 0 && r < d && x == d * q + r
    ensures x / d == q && x % d == r
  {
    Common.DivModUnique(x, d, q, r);
  }

  /** The configuration a rotating pattern index stands for: the C++
      `pIdx = patternIndex % 32`. */
  function ConfigAt(patternIndex: nat): (c: Config)
    ensures Encode(c) == patternIndex % 32
  {
    EncodeDecode(patternIndex % 32);
    Decode(patternIndex % 32)
  }

  /** The rotation visits every configuration once in every 32 consecutive
      indices. */
  lemma RotationCoversAll(start: nat, c: Config)
    ensures exists i :: start <= i < start + 32 && ConfigAt(i) == c
  {
    var target := Encode(c);
    var q, r := start / 32, start % 32;
    assert start == 32 * q + r;
    var i := if r <= target then 32 * q + target else 32 * (q + 1) + target;
    DivMod(i, 32, if r <= target then q else q + 1, target);
    DecodeEncode(c);
    assert ConfigAt(i) == c;
  }

  /** The tick sample i of a configuration is measured with: the static tick,
      or `pattern[i % 6]`. */
  function SampleTick(c: Config, i: nat): TickChoice
  {
    match c
    case Static(_, t) => t
    case Dynamic(_, p) => PatternTicks(p)[i % 6]
  }

  /** A dynamic pattern repeats every six samples. */
  lemma SampleTickPeriodic(c: Config, i: nat)
    ensures SampleTick(c, i + 6) == SampleTick(c, i)
  {
    assert (i + 6) % 6 == i % 6;
  }

  /** The key a batch is filed under in the result map. */
  function Key(c: Config): (k: string)
    ensures |k| >= 12
  {
    match c
    case Static(l, t) => "FFT" + RawValue(l) + " Tick" + TickName(t)
    case Dynamic(l, p) => "Dynamic FFT" + RawValue(l) + " " + PatternName(p)
  }

  lemma TickNameInjective(s: TickChoice, t: TickChoice)
    ensures TickName(s) == TickName(t) ==> s == t
  {
  }

  lemma PatternNameInjective(p: Pattern, q: Pattern)
    ensures PatternName(p) == PatternName(q) ==> p == q
  {
  }

  /** No two configurations share a key, so no batch of the full benchmark
      overwrites another. */
  lemma KeyInjective(c: Config, d: Config)
    ensures Key(c) == Key(d) ==> c == d
  {
    if Key(c) == Key(d) {
      var k := Key(c);
      assert k[0] == Key(d)[0];
      match c
      case Static(l, t) =>
        assert d.Static?;
        assert k[3..6] == RawValue(l) && k[3..6] == RawValue(d.level);
        assert k[11..] == TickName(t) && k[11..] == TickName(d.tick);
        RawValueInjective(l, d.level);
        TickNameInjective(t, d.tick);
      case Dynamic(l, p) =>
        assert d.Dynamic?;
        assert k[11..14] == RawValue(l) && k[11..14] == RawValue(d.level);
        assert k[15..] == PatternName(p) && k[15..] == PatternName(d.pattern);
        RawValueInjective(l, d.level);
        PatternNameInjective(p, d.pattern);
    }
  }

  /** The Swift `allPatterns` list: the static configurations level by level
      and tick by tick, then the dynamic ones level by level and pattern by
      pattern. It is the C++ decode written out: entry p is Decode(p). */
  method BuildConfigList() returns (list: seq<Config>)
    ensures |list| == 32
    ensures forall p :: 0 <= p < 32 ==> list[p] == Decode(p)
  {
    list := [];
    for f := 0 to 4
      invariant |list| == 3 * f
      invariant forall p :: 0 <= p < |list| ==> list[p] == Decode(p)
    {
      for t := 0 to 3
        invariant |list| == 3 * f + t
        invariant forall p :: 0 <= p < |list| ==> list[p] == Decode(p)
      {
        DivMod(3 * f + t, 3, f, t);
        list := list + [Static(AllLevels[f], TickChoices[t])];
      }
    }
    for f := 0 to 4
      invariant |list| == 12 + 5 * f
      invariant forall p :: 0 <= p < |list| ==> list[p] == Decode(p)
    {
      for q := 0 to 5
        invariant |list| == 12 + 5 * f + q
        invariant forall p :: 0 <= p < |list| ==> list[p] == Decode(p)
      {
        DivMod(5 * f + q, 5, f, q);
        list := list + [Dynamic(AllLevels[f], Patterns[q])];
      }
    }
  }

  /** The outcome of `measureSingle` for sample i of batch b with the given
      tick and load level; the timing itself is not modelled. */
  type Measure = (nat, nat, nat, FftLoadLevel) -> int

  /** The batch of a configuration: `iterations` samples, sample i
      measured with SampleTick(c, i). */
  function Samples(b: nat, c: Config, cal: CalibrationData, iterations: nat, measure: Measure): (data: seq<int>)
    ensures |data| == iterations
  {
    seq(iterations, i requires 0 <= i < iterations => measure(b, i, TickOf(cal, SampleTick(c, i)), c.level))
  }

  /** The sampling loop: `for i in 0..<iterations { data.append(measureSingle(...)) }`. */
  method CollectSamples(b: nat, c: Config, cal: CalibrationData, iterations: nat, measure: Measure)
    returns (data: seq<int>)
    ensures data == Samples(b, c, cal, iterations, measure)
  {
    data := [];
    var i := 0;
    while i < iterations
      invariant 0 <= i <= iterations
      invariant data == Samples(b, c, cal, iterations, measure)[..i]
    {
      var tick := TickOf(cal, SampleTick(c, i));
      data := data + [measure(b, i, tick, c.level)];
      i := i + 1;
    }
  }

  /** What the full benchmark's result map holds after the first n batches
      of the list: the key of each, filed with its samples, and nothing else. */
  ghost predicate Filed(results: map<string, seq<int>>, n: nat, cal: CalibrationData, iterations: nat, measure: Measure)
    requires n <= 32
  {
    (forall p :: 0 <= p < n ==> FiledAt(results, p, cal, iterations, measure))
    && (forall k :: k in results ==> exists p :: 0 <= p < n && k == Key(Decode(p)))
  }

  /** Batch p is filed under its key. */
  ghost predicate FiledAt(results: map<string, seq<int>>, p: nat, cal: CalibrationData, iterations: nat, measure: Measure)
    requires p < 32
  {
    Key(Decode(p)) in results && results[Key(Decode(p))] == Samples(p, Decode(p), cal, iterations, measure)
  }

  /** Different positions of the list have different keys. */
  lemma DistinctKeys(p: nat, n: nat)
    requires p < 32 && n < 32 && p != n
    ensures Key(Decode(p)) != Key(Decode(n))
  {
    KeyInjective(Decode(p), Decode(n));
    EncodeDecode(p);
    EncodeDecode(n);
  }

  /** Filing batch n under its key keeps the earlier batches. */
  lemma FileNext(results: map<string, seq<int>>, n: nat, cal: CalibrationData, iterations: nat, measure: Measure)
    requires n < 32 && Filed(results, n, cal, iterations, measure)
    ensures Filed(results[Key(Decode(n)) := Samples(n, Decode(n), cal, iterations, measure)], n + 1, cal, iterations, measure)
  {
    var key := Key(Decode(n));
    var r := results[key := Samples(n, Decode(n), cal, iterations, measure)];
    forall p | 0 <= p < n + 1
      ensures FiledAt(r, p, cal, iterations, measure)
    {
      if p < n {
        assert FiledAt(results, p, cal, iterations, measure);
        DistinctKeys(p, n);
      }
    }
    forall k | k in r
      ensures exists p :: 0 <= p < n + 1 && k == Key(Decode(p))
    {
      if k != key {
        var p :| 0 <= p < n && k == Key(Decode(p));
        assert 0 <= p < n + 1;
      }
    }
  }

  /** Samples per batch in the full benchmark and in a boundary scan. */
  const FullIterations: nat := 1_000_000
  const ScanIterations: nat := 30_000

  /** `runFullBenchmark`: every static batch, then every dynamic batch, each
      filed under its key with `results[key] = data`. Batch p is the one at
      position p of the list. */
  method RunFullBenchmark(cal: CalibrationData, measure: Measure)
    returns (results: map<string, seq<int>>)
    ensures forall p :: 0 <= p < 32 ==>
      Key(Decode(p)) in results && results[Key(Decode(p))] == Samples(p, Decode(p), cal, FullIterations, measure)
    ensures forall k :: k in results ==> exists p :: 0 <= p < 32 && k == Key(Decode(p))
  {
    results := RunStaticBatches(cal, measure);
    results := RunDynamicBatches(results, cal, measure);
    forall p | 0 <= p < 32
      ensures Key(Decode(p)) in results && results[Key(Decode(p))] == Samples(p, Decode(p), cal, FullIterations, measure)
    {
      assert FiledAt(results, p, cal, FullIterations, measure);
    }
  }

  /** Part 1: the twelve static batches, level by level and tick by tick. */
  method RunStaticBatches(cal: CalibrationData, measure: Measure)
    returns (results: map<string, seq<int>>)
    ensures Filed(results, 12, cal, FullIterations, measure)
  {
    results := map[];
    for f := 0 to 4
      invariant Filed(results, 3 * f, cal, FullIterations, measure)
    {
      for t := 0 to 3
        invariant Filed(results, 3 * f + t, cal, FullIterations, measure)
      {
        var c := Static(AllLevels[f], TickChoices[t]);
        DivMod(3 * f + t, 3, f, t);
        assert c == Decode(3 * f + t);
        var data := CollectSamples(3 * f + t, c, cal, FullIterations, measure);
        FileNext(results, 3 * f + t, cal, FullIterations, measure);
        results := results[Key(c) := data];
      }
    }
  }

  /** Part 2: the twenty dynamic batches, level by level and pattern by
      pattern, added to the static ones. */
  method RunDynamicBatches(staticResults: map<string, seq<int>>, cal: CalibrationData, measure: Measure)
    returns (results: map<string, seq<int>>)
    requires Filed(staticResults, 12, cal, FullIterations, measure)
    ensures Filed(results, 32, cal, FullIterations, measure)
  {
    results := staticResults;
    for f := 0 to 4
      invariant Filed(results, 12 + 5 * f, cal, FullIterations, measure)
    {
      for q := 0 to 5
        invariant Filed(results, 12 + 5 * f + q, cal, FullIterations, measure)
      {
        var c := Dynamic(AllLevels[f], Patterns[q]);
        DivMod(5 * f + q, 5, f, q);
        assert c == Decode(12 + 5 * f + q);
        var data := CollectSamples(12 + 5 * f + q, c, cal, FullIterations, measure);
        FileNext(results, 12 + 5 * f + q, cal, FullIterations, measure);
        results := results[Key(c) := data];
      }
    }
  }
}
