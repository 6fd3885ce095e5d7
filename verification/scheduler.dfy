/** Scheduled mode (`runScheduledMode` in both programs): a poll loop that
    starts a two-minute boundary scan at second 0 of minutes 29 and 59,
    at most once per instant, and a CSV log that each visit of the scan
    extends by one row. The wall clock is a parameter: every poll is given
    the local time of day, and a scan is given the times at which its
    visits take place (how many fit in two minutes is a matter of timing). */
module Scheduler {
  import opened Common
  import opened Calibration
  import opened Campaign
  import opened Statistics

  /** Local time of day in whole seconds. */
  type TimeOfDay = t: nat | t < 86400

  function Hour(t: TimeOfDay): (h: nat)
    ensures h < 24
  {
    t / 3600
  }

  function Minute(t: TimeOfDay): (m: nat)
    ensures m < 60
  {
    t / 60 % 60
  }

  function Second(t: TimeOfDay): (s: nat)
    ensures s < 60
  {
    t % 60
  }

  function Digit(d: nat): (c: char)
    requires d < 10
    ensures '0' <= c <= '9'
  {
    ('0' as int + d) as char
  }

  /** `%02d` of a number below 100. */
  function TwoDigits(n: nat): (s: string)
    requires n < 100
    ensures |s| == 2 && '0' <= s[0] <= '9' && '0' <= s[1] <= '9'
  {
    [Digit(n / 10), Digit(n % 10)]
  }

  lemma TwoDigitsInjective(m: nat, n: nat)
    requires m < 100 && n < 100
    ensures TwoDigits(m) == TwoDigits(n) ==> m == n
  {
    if TwoDigits(m) == TwoDigits(n) {
      assert m / 10 == n / 10 && m % 10 == n % 10;
    }
  }

  /** `timeStr`, the `"%02d:%02d"` formatting of minute and second; the
      hour is not part of it. */
  function TimeStr(t: TimeOfDay): (s: string)
    ensures |s| == 5 && s[2] == ':'
  {
    TwoDigits(Minute(t)) + ":" + TwoDigits(Second(t))
  }

  /** Two times of day have the same `timeStr` exactly when they agree in
      minute and second. */
  lemma TimeStrSame(t: TimeOfDay, u: TimeOfDay)
    ensures TimeStr(t) == TimeStr(u) <==> Minute(t) == Minute(u) && Second(t) == Second(u)
  {
    if TimeStr(t) == TimeStr(u) {
      assert TimeStr(t)[..2] == TwoDigits(Minute(t)) && TimeStr(u)[..2] == TwoDigits(Minute(u));
      assert TimeStr(t)[3..] == TwoDigits(Second(t)) && TimeStr(u)[3..] == TwoDigits(Second(u));
      TwoDigitsInjective(Minute(t), Minute(u));
      TwoDigitsInjective(Second(t), Second(u));
    }
  }

  /** `isBoundaryScan`: second 0 of minute 29 or 59. */
  predicate IsBoundaryScan(t: TimeOfDay)
  {
    Second(t) == 0 && (Minute(t) == 29 || Minute(t) == 59)
  }

  /** One step of the trigger: whether a poll at `now` starts a scan, and
      the `lastRunTime` after it. */
  datatype TriggerStep = TriggerStep(fires: bool, lastRunTime: string)

  function Trigger(lastRunTime: string, now: TimeOfDay): (r: TriggerStep)
    ensures r.fires <==> IsBoundaryScan(now) && lastRunTime != TimeStr(now)
    ensures r.fires ==> r.lastRunTime == TimeStr(now)
    ensures !r.fires ==> r.lastRunTime == lastRunTime
  {
    var timeStr := TimeStr(now);
    if IsBoundaryScan(now) && lastRunTime != timeStr then TriggerStep(true, timeStr)
    else TriggerStep(false, lastRunTime)
  }

  /** The initial `lastRunTime` of "" never blocks a boundary. */
  lemma FirstBoundaryFires(now: TimeOfDay)
    requires IsBoundaryScan(now)
    ensures Trigger("", now).fires
  {
    assert |TimeStr(now)| == 5;
  }

  /** After firing, a poll in the same second (the loop polls every 100
      ms) does not fire again; the other boundary does. */
  lemma NoRefire(last: string, now: TimeOfDay, later: TimeOfDay)
    requires Trigger(last, now).fires
    ensures Minute(later) == Minute(now) && Second(later) == Second(now)
      ==> !Trigger(Trigger(last, now).lastRunTime, later).fires
    ensures IsBoundaryScan(later) && Minute(later) != Minute(now)
      ==> Trigger(Trigger(last, now).lastRunTime, later).fires
  {
    TimeStrSame(now, later);
  }

  /** `boundaryMinute`: the minute the scan straddles into. */
  function BoundaryMinute(minute: nat): (b: nat)
    ensures minute == 29 ==> b == 30
    ensures minute != 29 ==> b == 0
  {
    if minute == 29 then 30 else 0
  }

  /** For a boundary scan it is the next minute on the clock. */
  lemma BoundaryMinuteIsNext(t: TimeOfDay)
    requires IsBoundaryScan(t)
    ensures BoundaryMinute(Minute(t)) == (Minute(t) + 1) % 60
  {
  }

  /** How many of a run of polls fire, starting from `lastRunTime`. */
  function FireCount(lastRunTime: string, polls: seq<TimeOfDay>): (n: nat)
    ensures n <= |polls|
    decreases |polls|
  {
    if |polls| == 0 then 0
    else
      var step := Trigger(lastRunTime, polls[0]);
      (if step.fires then 1 else 0) + FireCount(step.lastRunTime, polls[1..])
  }

  /** Once `lastRunTime` holds an instant's string, no poll in that
      instant fires. */
  lemma {:induction false} NoFireAfter(now: TimeOfDay, polls: seq<TimeOfDay>)
    requires forall i :: 0 <= i < |polls| ==> TimeStr(polls[i]) == TimeStr(now)
    ensures FireCount(TimeStr(now), polls) == 0
  {
    if |polls| > 0 {
      NoFireAfter(now, polls[1..]);
    }
  }

  /** However often the loop polls within one instant, it starts at most
      one scan there. */
  lemma {:induction false} AtMostOncePerInstant(lastRunTime: string, now: TimeOfDay, polls: seq<TimeOfDay>)
    requires forall i :: 0 <= i < |polls| ==> TimeStr(polls[i]) == TimeStr(now)
    ensures FireCount(lastRunTime, polls) <= 1
  {
    if |polls| > 0 {
      var step := Trigger(lastRunTime, polls[0]);
      if step.fires {
        NoFireAfter(now, polls[1..]);
      } else {
        AtMostOncePerInstant(lastRunTime, now, polls[1..]);
      }
    }
  }

  /** A run of polls fires only if one of them is at a boundary. */
  lemma {:induction false} FiresOnlyAtBoundaries(lastRunTime: string, polls: seq<TimeOfDay>)
    requires FireCount(lastRunTime, polls) > 0
    ensures exists i :: 0 <= i < |polls| && IsBoundaryScan(polls[i])
  {
    var step := Trigger(lastRunTime, polls[0]);
    if !step.fires {
      FiresOnlyAtBoundaries(step.lastRunTime, polls[1..]);
      var i :| 0 <= i < |polls[1..]| && IsBoundaryScan(polls[1..][i]);
      assert IsBoundaryScan(polls[i + 1]);
    }
  }

  /** The hour and minute columns of a row: the C++ `mHour` and `mMinute`,
      read at the start of the visit. They name the minute the visit
      started in. */
  function RowTime(measured: TimeOfDay): (hm: (nat, nat))
    ensures hm.0 < 24 && hm.1 < 60
    ensures hm.0 * 3600 + hm.1 * 60 <= measured < hm.0 * 3600 + hm.1 * 60 + 60
  {
    (Hour(measured), Minute(measured))
  }

  /** The Swift row as written: the `hour` read when the scan was triggered,
      with the minute read when the visit started. */
  function SwiftRowTime(trigger: TimeOfDay, measured: TimeOfDay): (hm: (nat, nat))
    ensures hm.0 == Hour(trigger) && hm.1 == Minute(measured)
  {
    (Hour(trigger), Minute(measured))
  }

  /** While the hour has not turned, the Swift columns are the right ones:
      always in a scan triggered at minute 29. */
  lemma SwiftRowTimeWithinHour(trigger: TimeOfDay, measured: TimeOfDay)
    requires Hour(trigger) == Hour(measured)
    ensures SwiftRowTime(trigger, measured) == RowTime(measured)
  {
  }

  /** In a scan triggered at 10:59:00, a visit at 11:00:30 is logged as
      10:00, an hour before it took place. */
  lemma SwiftRowTimeAcrossHour()
    ensures SwiftRowTime(39540, 39630) == (10, 0)
    ensures RowTime(39630) == (11, 0)
    ensures !(10 * 3600 + 0 * 60 <= 39630 < 10 * 3600 + 0 * 60 + 60)
  {
  }

  /** One CSV row: the visit's timestamp, its hour and minute columns, its
      configuration (type, FFT level and pattern name) and its quick
      statistics. */
  datatype Row = Row(timestamp: TimeOfDay, hour: nat, minute: nat, config: Config, stats: QuickStats)

  datatype Line = Header | Record(row: Row)

  /** A log file: the header line, then data rows. */
  ghost predicate WellFormed(lines: seq<Line>)
  {
    |lines| > 0 && lines[0] == Header && forall i :: 1 <= i < |lines| ==> lines[i].Record?
  }

  /** The day's CSV file. */
  class CsvLog {
    var lines: seq<Line>

    /** The file as it is found on disk (empty when it does not exist). */
    constructor (existing: seq<Line>)
      ensures lines == existing
    {
      lines := existing;
    }

    /** C++: open in append mode and write the header only when the file
        is empty (`tellp() == 0`); an existing day's rows are kept. */
    method OpenForAppend()
      modifies this
      ensures lines == if old(lines) == [] then [Header] else old(lines)
      ensures old(lines) == [] || WellFormed(old(lines)) ==> WellFormed(lines)
    {
      if lines == [] {
        lines := [Header];
      }
    }

    /** Swift: `write(toFile:atomically:)` of the header replaces whatever
        the file held. */
    method Overwrite()
      modifies this
      ensures lines == [Header] && WellFormed(lines)
    {
      lines := [Header];
    }

    /** One visit's line, appended at the end; earlier lines unchanged. */
    method Append(row: Row)
      modifies this
      ensures lines == old(lines) + [Record(row)]
      ensures WellFormed(old(lines)) ==> WellFormed(lines)
    {
      lines := lines + [Record(row)];
    }
  }

  /** What a row of the scan must say about visit `patternIndex`, started
      at `at`: its time, the configuration of the rotation, and the quick
      statistics of the visit's 30000 samples. */
  ghost predicate Logs(row: Row, patternIndex: nat, at: TimeOfDay, cal: CalibrationData, measure: Measure)
  {
    && row.timestamp == at
    && (row.hour, row.minute) == RowTime(at)
    && row.config == ConfigAt(patternIndex)
    && Summarises(Samples(patternIndex, row.config, cal, ScanIterations, measure), row.stats)
  }

  /** A scan with the given visits extends the log by one row per visit,
      in order, and leaves the lines before it alone. */
  ghost predicate ScanLogged(before: seq<Line>, after: seq<Line>, visits: seq<TimeOfDay>, cal: CalibrationData, measure: Measure)
  {
    && |after| == |before| + |visits|
    && after[..|before|] == before
    && forall j :: |before| <= j < |after| ==>
         after[j].Record? && Logs(after[j].row, j - |before|, visits[j - |before|], cal, measure)
  }

  lemma ScanLoggedStep(before: seq<Line>, after: seq<Line>, visits: seq<TimeOfDay>, n: nat, row: Row,
                       cal: CalibrationData, measure: Measure)
    requires n < |visits| && ScanLogged(before, after, visits[..n], cal, measure)
    requires Logs(row, n, visits[n], cal, measure)
    ensures ScanLogged(before, after + [Record(row)], visits[..n + 1], cal, measure)
  {
    var next := after + [Record(row)];
    forall j | |before| <= j < |next|
      ensures next[j].Record? && Logs(next[j].row, j - |before|, visits[..n + 1][j - |before|], cal, measure)
    {
      if j < |after| {
        assert visits[..n + 1][j - |before|] == visits[..n][j - |before|];
      }
    }
    assert next[..|before|] == after[..|before|];
  }

  /** The scheduled-mode loop state. */
  class ScheduledMode {
    var lastRunTime: string
    const log: CsvLog
    const cal: CalibrationData

    constructor (log: CsvLog, cal: CalibrationData)
      ensures lastRunTime == "" && this.log == log && this.cal == cal
    {
      lastRunTime := "";
      this.log := log;
      this.cal := cal;
    }

    /** One iteration of the poll loop at time `now`. When the trigger
        fires it runs the scan, whose visits start at the given times. */
    method Poll(now: TimeOfDay, visits: seq<TimeOfDay>, measure: Measure) returns (fired: bool)
      modifies this, log
      ensures fired == Trigger(old(lastRunTime), now).fires
      ensures lastRunTime == Trigger(old(lastRunTime), now).lastRunTime
      ensures fired ==> ScanLogged(old(log.lines), log.lines, visits, cal, measure)
      ensures !fired ==> log.lines == old(log.lines)
    {
      var timeStr := TimeStr(now);
      var isBoundaryScan := Second(now) == 0 && (Minute(now) == 29 || Minute(now) == 59);
      fired := isBoundaryScan && lastRunTime != timeStr;
      if fired {
        lastRunTime := timeStr;
        BoundaryScan(visits, measure);
      }
    }

    /** The two-minute scan: visit `patternIndex` measures configuration
        `patternIndex % 32` and appends its row. */
    method BoundaryScan(visits: seq<TimeOfDay>, measure: Measure)
      modifies log
      ensures ScanLogged(old(log.lines), log.lines, visits, cal, measure)
    {
      var patternIndex := 0;
      while patternIndex < |visits|
        invariant patternIndex <= |visits|
        invariant ScanLogged(old(log.lines), log.lines, visits[..patternIndex], cal, measure)
      {
        var at := visits[patternIndex];
        var config := ConfigAt(patternIndex);
        var data := CollectSamples(patternIndex, config, cal, ScanIterations, measure);
        var stats := QuickAnalyze(data);
        var hm := RowTime(at);
        var row := Row(at, hm.0, hm.1, config, stats);
        ScanLoggedStep(old(log.lines), log.lines, visits, patternIndex, row, cal, measure);
        log.Append(row);
        patternIndex := patternIndex + 1;
      }
      assert visits[..patternIndex] == visits;
    }
  }
}
