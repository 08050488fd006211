/** The tuning driver: windowed power from the two meter logs, the score of
    one run, the four seed corners and the set-up and clean-up around the
    optimiser.

    Meter logs hold lines `timestamp,watts`. A log is `None` when its file
    does not exist. Timestamps and numbers go through the same parsing
    oracles as the benchmark output (`Hpl.Parsers`), with the same
    timestamp format. */
module Search {
  import opened Common
  import opened Text
  import Config
  import Hpl
  import Bayes

  // ---------------------------------------------------------------------
  // Reading one meter log (read_file inside _compute_interval_avg_power)

  /** A log line as the scan sees it: its timestamp and its reading, each
      present only when the stripped line has exactly two comma-separated
      fields and that field parses. */
  datatype Sample = Sample(stamp: Option<int>, reading: Option<Float>)

  function ParseSample(p: Hpl.Parsers, line: string): Sample
  {
    var parts := Split(Strip(line), ',');
    if |parts| != 2 then Sample(None, None) else Sample(p.stamp(parts[0]), p.number(parts[1]))
  }

  /** Every line of a log, parsed. */
  function ParseSamples(p: Hpl.Parsers, lines: seq<string>): (r: seq<Sample>)
    ensures |r| == |lines|
  {
    if |lines| == 0 then [] else [ParseSample(p, lines[0])] + ParseSamples(p, lines[1..])
  }

  /** What one log line does to the scan. */
  datatype Verdict = Skip | Stop | Keep(reading: Float)

  /** Early lines and lines that do not parse are skipped; the first line
      past the window stops the scan. The early test comes first. */
  function Classify(tStart: int, tEnd: int, s: Sample): Verdict
  {
    match s.stamp
    case None => Skip
    case Some(ts) =>
      if ts < tStart then Skip
      else if ts > tEnd then Stop
      else
        match s.reading
        case None => Skip
        case Some(v) => Keep(v)
  }

  /** The readings the scan collects, up to the first line past the window. */
  function WindowSamples(tStart: int, tEnd: int, samples: seq<Sample>): seq<Float>
    decreases |samples|
  {
    if |samples| == 0 then []
    else
      match Classify(tStart, tEnd, samples[0])
      case Skip => WindowSamples(tStart, tEnd, samples[1..])
      case Stop => []
      case Keep(v) => [v] + WindowSamples(tStart, tEnd, samples[1..])
  }

  /** A missing log yields no readings. */
  function MeterSamples(p: Hpl.Parsers, tStart: int, tEnd: int, log: Option<seq<string>>): seq<Float>
  {
    if log.None? then [] else WindowSamples(tStart, tEnd, ParseSamples(p, log.value))
  }

  /** read_file: skip malformed, unparsable and early lines; stop at the
      first line past the window. */
  method ReadMeterLog(p: Hpl.Parsers, tStart: int, tEnd: int, log: Option<seq<string>>) returns (vals: seq<Float>)
    ensures vals == MeterSamples(p, tStart, tEnd, log)
    ensures log.None? ==> vals == []
  {
    if log.None? {
      return [];
    }
    var lines := log.value;
    ghost var samples := ParseSamples(p, lines);
    vals := [];
    var i := 0;
    while i < |lines|
      invariant 0 <= i <= |lines|
      invariant WindowSamples(tStart, tEnd, samples) == vals + WindowSamples(tStart, tEnd, ParseSamples(p, lines[i..]))
    {
      var line := lines[i];
      ghost var rest := ParseSamples(p, lines[i..]);
      assert lines[i..][0] == line && lines[i..][1..] == lines[i + 1..];
      assert rest == [ParseSample(p, line)] + ParseSamples(p, lines[i + 1..]);
      i := i + 1;
      var parts := Split(Strip(line), ',');
      if |parts| != 2 {
        continue;
      }
      var ts := p.stamp(parts[0]);
      if ts.None? {
        continue;
      }
      if ts.value < tStart {
        continue;
      }
      if ts.value > tEnd {
        assert WindowSamples(tStart, tEnd, rest) == [];
        break;
      }
      var val := p.number(parts[1]);
      if val.None? {
        continue;
      }
      vals := vals + [val.value];
    }
    assert lines[|lines|..] == [];
  }

  // ---------------------------------------------------------------------
  // What the scan keeps, stated without the scan

  /** A line whose timestamp lies in the window, both ends included. */
  predicate InWindow(tStart: int, tEnd: int, s: Sample)
  {
    s.stamp.Some? && tStart <= s.stamp.value <= tEnd
  }

  /** A line whose timestamp lies past the window: not before its start
      (that test comes first) and after its end. */
  predicate Late(tStart: int, tEnd: int, s: Sample)
  {
    s.stamp.Some? && !(s.stamp.value < tStart) && s.stamp.value > tEnd
  }

  /** The reading a line contributes when the scan does not stop: its
      value when the line is in the window and parses, nothing otherwise. */
  function Kept(tStart: int, tEnd: int, s: Sample): seq<Float>
  {
    if InWindow(tStart, tEnd, s) && s.reading.Some? then [s.reading.value] else []
  }

  /** Every parsable reading of every in-window line, in order. */
  function InWindowReadings(tStart: int, tEnd: int, samples: seq<Sample>): seq<Float>
    decreases |samples|
  {
    if |samples| == 0 then []
    else Kept(tStart, tEnd, samples[0]) + InWindowReadings(tStart, tEnd, samples[1..])
  }

  /** The position of the first late line, or the length when there is none. */
  function FirstLate(tStart: int, tEnd: int, samples: seq<Sample>): (n: nat)
    ensures n <= |samples|
    ensures forall i :: 0 <= i < n ==> !Late(tStart, tEnd, samples[i])
    ensures n < |samples| ==> Late(tStart, tEnd, samples[n])
    decreases |samples|
  {
    if |samples| == 0 || Late(tStart, tEnd, samples[0]) then 0 else 1 + FirstLate(tStart, tEnd, samples[1..])
  }

  /** The scan keeps exactly the in-window readings of the lines before the
      first late line. */
  lemma {:induction false} WindowSamplesFilter(tStart: int, tEnd: int, samples: seq<Sample>)
    ensures WindowSamples(tStart, tEnd, samples)
            == InWindowReadings(tStart, tEnd, samples[..FirstLate(tStart, tEnd, samples)])
    decreases |samples|
  {
    if |samples| > 0 {
      var n := FirstLate(tStart, tEnd, samples);
      if n > 0 {
        var tail := samples[1..];
        WindowSamplesFilter(tStart, tEnd, tail);
        assert samples[..n][0] == samples[0];
        assert samples[..n][1..] == tail[..n - 1];
      }
    }
  }

  lemma {:induction false} InWindowReadingsAppend(tStart: int, tEnd: int, a: seq<Sample>, b: seq<Sample>)
    ensures InWindowReadings(tStart, tEnd, a + b)
            == InWindowReadings(tStart, tEnd, a) + InWindowReadings(tStart, tEnd, b)
    decreases |a|
  {
    if |a| == 0 {
      assert a + b == b;
    } else {
      var head := Kept(tStart, tEnd, a[0]);
      assert (a + b)[0] == a[0] && (a + b)[1..] == a[1..] + b;
      assert InWindowReadings(tStart, tEnd, a + b) == head + InWindowReadings(tStart, tEnd, a[1..] + b);
      InWindowReadingsAppend(tStart, tEnd, a[1..], b);
      assert InWindowReadings(tStart, tEnd, a) == head + InWindowReadings(tStart, tEnd, a[1..]);
    }
  }

  lemma {:induction false} NoneInWindow(tStart: int, tEnd: int, samples: seq<Sample>)
    requires forall i :: 0 <= i < |samples| ==> !InWindow(tStart, tEnd, samples[i])
    ensures InWindowReadings(tStart, tEnd, samples) == []
    decreases |samples|
  {
    if |samples| > 0 {
      NoneInWindow(tStart, tEnd, samples[1..]);
    }
  }

  /** Timestamps that never decrease along the log. */
  predicate StampsSorted(samples: seq<Sample>)
    ensures StampsSorted(samples) ==> forall k :: 0 <= k <= |samples| ==> StampsSorted(samples[k..])
  {
    forall i, j :: 0 <= i < j < |samples| && samples[i].stamp.Some? && samples[j].stamp.Some?
      ==> samples[i].stamp.value <= samples[j].stamp.value
  }

  /** With a log in time order the early exit loses nothing: the scan keeps
      every in-window reading of the whole log. */
  lemma SortedScanComplete(tStart: int, tEnd: int, samples: seq<Sample>)
    requires StampsSorted(samples)
    ensures WindowSamples(tStart, tEnd, samples) == InWindowReadings(tStart, tEnd, samples)
  {
    var n := FirstLate(tStart, tEnd, samples);
    WindowSamplesFilter(tStart, tEnd, samples);
    if n < |samples| {
      var rest := samples[n..];
      assert samples == samples[..n] + rest;
      InWindowReadingsAppend(tStart, tEnd, samples[..n], rest);
      SortedAfterLate(tStart, tEnd, rest);
      NoneInWindow(tStart, tEnd, rest);
    } else {
      assert samples[..n] == samples;
    }
  }

  /** In a log in time order nothing after a late line is in the window. */
  lemma SortedAfterLate(tStart: int, tEnd: int, rest: seq<Sample>)
    requires StampsSorted(rest) && |rest| > 0 && Late(tStart, tEnd, rest[0])
    ensures forall i :: 0 <= i < |rest| ==> !InWindow(tStart, tEnd, rest[i])
  {
    forall i | 0 < i < |rest| && rest[i].stamp.Some?
      ensures rest[0].stamp.value <= rest[i].stamp.value
    {
    }
  }

  /** A line past the window ends the scan: nothing after it is read, even
      a line back inside the window. */
  lemma {:induction false} LateLineEndsScan(tStart: int, tEnd: int, before: seq<Sample>, late: Sample, after: seq<Sample>)
    requires Late(tStart, tEnd, late)
    ensures WindowSamples(tStart, tEnd, before + [late] + after) == WindowSamples(tStart, tEnd, before)
    decreases |before|
  {
    var all := before + [late] + after;
    if |before| == 0 {
      assert all[0] == late;
    } else {
      LateLineEndsScan(tStart, tEnd, before[1..], late, after);
      assert all[0] == before[0] && all[1..] == before[1..] + [late] + after;
    }
  }

  /** A line the scan skips (malformed, unparsable or early) is not fatal:
      the scan reads on as if the line were absent. */
  lemma {:induction false} SkippedLineInert(tStart: int, tEnd: int, before: seq<Sample>, skipped: Sample, after: seq<Sample>)
    requires Classify(tStart, tEnd, skipped) == Skip
    ensures WindowSamples(tStart, tEnd, before + [skipped] + after) == WindowSamples(tStart, tEnd, before + after)
    decreases |before|
  {
    var all := before + [skipped] + after;
    if |before| == 0 {
      assert all[0] == skipped && all[1..] == after;
      assert before + after == after;
    } else {
      SkippedLineInert(tStart, tEnd, before[1..], skipped, after);
      assert all[0] == before[0] && all[1..] == before[1..] + [skipped] + after;
      assert (before + after)[0] == before[0] && (before + after)[1..] == before[1..] + after;
    }
  }

  // ---------------------------------------------------------------------
  // Averages and the interval power

  /** `sum(vals)`: the readings added left to right from 0. */
  function Sum(vals: seq<Float>): Float
    decreases |vals|
  {
    if |vals| == 0 then Num(0.0) else Add(Sum(vals[..|vals| - 1]), vals[|vals| - 1])
  }

  /** `sum(vals) / len(vals) if vals else 0.0`. */
  function Mean(vals: seq<Float>): Float
  {
    if |vals| == 0 then Num(0.0) else DivCount(Sum(vals), |vals|)
  }

  /** One NaN reading poisons the sum, and only a NaN does. */
  lemma {:induction false} SumNaN(vals: seq<Float>)
    ensures Sum(vals).NaN? <==> exists i :: 0 <= i < |vals| && vals[i].NaN?
    decreases |vals|
  {
    if |vals| > 0 {
      var init := vals[..|vals| - 1];
      SumNaN(init);
      if exists i :: 0 <= i < |init| && init[i].NaN? {
        var i :| 0 <= i < |init| && init[i].NaN?;
        assert vals[i] == init[i];
      }
      if exists i :: 0 <= i < |vals| && vals[i].NaN? {
        var i :| 0 <= i < |vals| && vals[i].NaN?;
        if i < |init| {
          assert init[i] == vals[i];
        }
      }
    }
  }

  /** Readings between `lo` and `hi` add up to between n*lo and n*hi. */
  lemma {:induction false} SumBetween(vals: seq<Float>, lo: real, hi: real)
    requires forall i :: 0 <= i < |vals| ==> vals[i].Num? && lo <= vals[i].v <= hi
    ensures Sum(vals).Num?
    ensures |vals| as real * lo <= Sum(vals).v <= |vals| as real * hi
    decreases |vals|
  {
    if |vals| > 0 {
      var init := vals[..|vals| - 1];
      SumBetween(init, lo, hi);
      var m := |init| as real;
      assert Sum(vals).v == Sum(init).v + vals[|vals| - 1].v;
      assert |vals| as real * lo == m * lo + lo;
      assert |vals| as real * hi == m * hi + hi;
    }
  }

  /** A quotient by a positive count lies between the bounds its dividend
      lies between, scaled. */
  lemma QuotientBetween(m: real, n: real, total: real, lo: real, hi: real)
    requires n > 0.0 && m * n == total && n * lo <= total <= n * hi
    ensures lo <= m <= hi
  {
    assert (m - lo) * n == total - n * lo;
    assert (hi - m) * n == n * hi - total;
    NonNegativeFactor(m - lo, n);
    NonNegativeFactor(hi - m, n);
  }

  lemma NonNegativeFactor(a: real, n: real)
    requires n > 0.0 && a * n >= 0.0
    ensures a >= 0.0
  {
  }

  lemma MeanTimesCount(vals: seq<Float>)
    requires |vals| > 0 && Sum(vals).Num?
    ensures Mean(vals).Num? && Mean(vals).v * |vals| as real == Sum(vals).v
  {
  }

  /** The mean of readings between `lo` and `hi` lies between them. */
  lemma MeanBetween(vals: seq<Float>, lo: real, hi: real)
    requires |vals| > 0
    requires forall i :: 0 <= i < |vals| ==> vals[i].Num? && lo <= vals[i].v <= hi
    ensures Mean(vals).Num? && lo <= Mean(vals).v <= hi
  {
    var total := Sum(vals);
    assert total.Num? && |vals| as real * lo <= total.v <= |vals| as real * hi by {
      SumBetween(vals, lo, hi);
    }
    var mean := Mean(vals);
    assert mean.Num? && mean.v * |vals| as real == total.v by {
      MeanTimesCount(vals);
    }
    QuotientBetween(mean.v, |vals| as real, total.v, lo, hi);
  }

  /** The average power of the two meters: the mean of each meter's
      readings, added. */
  function PairPower(vals0: seq<Float>, vals1: seq<Float>): Float
  {
    Add(Mean(vals0), Mean(vals1))
  }

  /** _compute_interval_avg_power: the pair power of the window readings. */
  function IntervalAvgPower(p: Hpl.Parsers, tStart: int, tEnd: int,
                            log0: Option<seq<string>>, log1: Option<seq<string>>): Float
  {
    PairPower(MeterSamples(p, tStart, tEnd, log0), MeterSamples(p, tStart, tEnd, log1))
  }

  method ComputeIntervalAvgPower(p: Hpl.Parsers, tStart: int, tEnd: int,
                                 log0: Option<seq<string>>, log1: Option<seq<string>>) returns (power: Float)
    ensures power == IntervalAvgPower(p, tStart, tEnd, log0, log1)
  {
    var vals0 := ReadMeterLog(p, tStart, tEnd, log0);
    var vals1 := ReadMeterLog(p, tStart, tEnd, log1);
    var avg0 := if |vals0| > 0 then DivCount(Sum(vals0), |vals0|) else Num(0.0);
    var avg1 := if |vals1| > 0 then DivCount(Sum(vals1), |vals1|) else Num(0.0);
    power := Add(avg0, avg1);
  }

  /** The pair power is NaN exactly when either meter has a NaN reading;
      with no readings at all it is 0. */
  lemma PairPowerNaN(vals0: seq<Float>, vals1: seq<Float>)
    ensures PairPower(vals0, vals1).NaN?
            <==> (exists i :: 0 <= i < |vals0| && vals0[i].NaN?) || (exists i :: 0 <= i < |vals1| && vals1[i].NaN?)
    ensures vals0 == [] && vals1 == [] ==> PairPower(vals0, vals1) == Num(0.0)
  {
    SumNaN(vals0);
    SumNaN(vals1);
  }

  // ---------------------------------------------------------------------
  // Scoring one run (sample_loss)

  /** `x is None or x == -1` for Gflops and exetime. */
  predicate Missing(x: Option<Float>)
  {
    x.None? || x == Some(Num(-1.0))
  }

  /** The parse-failure test: any of the four values missing. */
  predicate ParseFailed(st: Hpl.Parsed)
  {
    Missing(st.gflops) || Missing(st.exetime) || st.lasttime.Unset? || st.thistime.Unset?
  }

  /** `Gflops / power if (power and power == power and power > 0) else 0.0`:
      a NaN, zero or negative power scores 0; otherwise the efficiency
      times the power is the throughput, and only a NaN throughput gives a
      NaN efficiency. */
  function Efficiency(gflops: Float, power: Float): (e: Float)
    ensures power.NaN? || power.v <= 0.0 ==> e == Num(0.0)
    ensures power.Num? && power.v > 0.0 ==>
      (e.NaN? <==> gflops.NaN?) && (gflops.Num? ==> e.v * power.v == gflops.v)
  {
    if power.Num? && power.v > 0.0 then
      match gflops
      case NaN => NaN
      case Num(g) => Num(g / power.v)
    else Num(0.0)
  }

  /** (GflopsPerW, power) for one run. */
  datatype Score = Score(efficiency: Float, power: Float)

  /** The scoring branch of sample_loss; the meter logs are read only on the
      success path. */
  function ScoreRun(p: Hpl.Parsers, st: Hpl.Parsed, log0: Option<seq<string>>, log1: Option<seq<string>>): Score
  {
    if ParseFailed(st) then Score(Num(0.0), NaN)
    else
      var power := IntervalAvgPower(p, st.lasttime.micros, st.thistime.micros, log0, log1);
      Score(Efficiency(st.gflops.value, power), power)
  }

  /** A failed parse scores 0 with a NaN power and does not look at the
      logs at all. */
  lemma ScoreRunFailed(p: Hpl.Parsers, st: Hpl.Parsed, log0: Option<seq<string>>, log1: Option<seq<string>>,
                       other0: Option<seq<string>>, other1: Option<seq<string>>)
    requires ParseFailed(st)
    ensures ScoreRun(p, st, log0, log1) == Score(Num(0.0), NaN) == ScoreRun(p, st, other0, other1)
  {
  }

  /** A NaN reading inside the window of either meter scores the run 0. */
  lemma NaNReadingScoresZero(p: Hpl.Parsers, st: Hpl.Parsed, log0: Option<seq<string>>, log1: Option<seq<string>>, i: nat)
    requires !ParseFailed(st)
    requires var s0 := MeterSamples(p, st.lasttime.micros, st.thistime.micros, log0);
             var s1 := MeterSamples(p, st.lasttime.micros, st.thistime.micros, log1);
             (i < |s0| && s0[i].NaN?) || (i < |s1| && s1[i].NaN?)
    ensures ScoreRun(p, st, log0, log1) == Score(Num(0.0), NaN)
  {
    PairPowerNaN(MeterSamples(p, st.lasttime.micros, st.thistime.micros, log0),
                 MeterSamples(p, st.lasttime.micros, st.thistime.micros, log1));
  }

  /** sample_loss as written: the result row formats Gflops with `:.0f` and
      exetime with `:.2f`, which raises when either is still None. */
  function SampleLossAsWritten(app: string, p: Hpl.Parsers, output: seq<string>,
                               log0: Option<seq<string>>, log1: Option<seq<string>>): Option<Float>
  {
    match Hpl.ParseLines(app, p, output)
    case Raised => None
    case Ok(st) =>
      var score := ScoreRun(p, st, log0, log1);
      if st.gflops.None? || st.exetime.None? then None else Some(score.efficiency)
  }

  /** sample_loss as its warning intends: a run whose output could not be
      parsed scores 0 and the search goes on. */
  function SampleLoss(app: string, p: Hpl.Parsers, output: seq<string>,
                      log0: Option<seq<string>>, log1: Option<seq<string>>): Option<Float>
  {
    match Hpl.ParseLines(app, p, output)
    case Raised => None
    case Ok(st) => Some(ScoreRun(p, st, log0, log1).efficiency)
  }

  /** As written, output without a result line makes the evaluation raise
      instead of scoring 0, which ends the whole search. */
  lemma NoResultLineRaisesAsWritten(app: string, p: Hpl.Parsers, output: seq<string>,
                                    log0: Option<seq<string>>, log1: Option<seq<string>>)
    requires Hpl.ParseLines(app, p, output).Ok?
    requires Hpl.ResultLines(app, output) == []
    ensures SampleLossAsWritten(app, p, output, log0, log1) == None
    ensures SampleLoss(app, p, output, log0, log1) == Some(Num(0.0))
  {
    Hpl.ParseFigures(app, p, output);
  }

  /** The corrected evaluation raises only when parsing the output raises,
      and a failed parse scores exactly 0. */
  lemma SampleLossScoresFailures(app: string, p: Hpl.Parsers, output: seq<string>,
                                 log0: Option<seq<string>>, log1: Option<seq<string>>)
    ensures SampleLoss(app, p, output, log0, log1).None?
            <==> exists i :: 0 <= i < |output| && Hpl.LineRaises(app, p, output[i])
    ensures Hpl.ParseLines(app, p, output).Ok? && ParseFailed(Hpl.ParseLines(app, p, output).value)
            ==> SampleLoss(app, p, output, log0, log1) == Some(Num(0.0))
  {
    Hpl.ParseRaisesIff(app, p, output);
  }

  // ---------------------------------------------------------------------
  // The seed corners

  /** `init`: (max, max), (max, min), (min, max), (min, min), in GHz. */
  function SeedCorners(): seq<Bayes.Candidate>
  {
    var cpuMax := Config.CPU_FREQ_MAX as real / 10.0;
    var cpuMin := Config.CPU_FREQ_MIN as real / 10.0;
    var gpuMax := Config.GPU_FREQ_MAX as real / 1000.0;
    var gpuMin := Config.GPU_FREQ_MIN as real / 1000.0;
    [Bayes.Candidate(cpuMax, gpuMax), Bayes.Candidate(cpuMax, gpuMin),
     Bayes.Candidate(cpuMin, gpuMax), Bayes.Candidate(cpuMin, gpuMin)]
  }

  /** The corners in GHz. */
  lemma SeedCornersValues()
    ensures SeedCorners() == [Bayes.Candidate(2.2, 1.44), Bayes.Candidate(2.2, 0.135),
                              Bayes.Candidate(1.2, 1.44), Bayes.Candidate(1.2, 0.135)]
  {
  }

  /** The corners are legal frequency pairs, and projecting one changes
      nothing. */
  lemma SeedCornersOnLattice(legal: seq<int>)
    requires Config.IsGpuLattice(legal)
    ensures forall i :: 0 <= i < |SeedCorners()| ==>
      Bayes.OnLattice(SeedCorners()[i], legal) && Bayes.Project(SeedCorners()[i], legal) == Some(SeedCorners()[i])
  {
    assert Config.GPU_FREQ_MIN in legal && Config.GPU_FREQ_MAX in legal by {
      Config.GpuLatticeBounds(legal);
    }
    var corners := SeedCorners();
    forall i | 0 <= i < |corners|
      ensures Bayes.OnLattice(corners[i], legal) && Bayes.Project(corners[i], legal) == Some(corners[i])
    {
      var k := if i < 2 then Config.CPU_FREQ_MAX else Config.CPU_FREQ_MIN;
      var g := if i % 2 == 0 then Config.GPU_FREQ_MAX else Config.GPU_FREQ_MIN;
      assert corners[i] == Bayes.Candidate(k as real / 10.0, g as real / 1000.0);
      CornerOnLattice(legal, k, g);
    }
  }

  /** A corner made of a CPU step and a legal GPU value, in GHz, is on the
      lattice and fixed by projection. */
  lemma CornerOnLattice(legal: seq<int>, k: int, g: int)
    requires g in legal && Config.CPU_FREQ_MIN <= k <= Config.CPU_FREQ_MAX
    ensures var c := Bayes.Candidate(k as real / 10.0, g as real / 1000.0);
      Bayes.OnLattice(c, legal) && Bayes.Project(c, legal) == Some(c)
  {
    var c := Bayes.Candidate(k as real / 10.0, g as real / 1000.0);
    assert 10.0 * c.cpu == k as real;
    assert (10.0 * c.cpu).Floor == k;
    assert 1000.0 * c.gpu == g as real;
    assert (1000.0 * c.gpu).Floor == g;
    Bayes.ProjectFixesLatticePoint(legal, k, g);
  }

  // ---------------------------------------------------------------------
  // bayes_search

  /** The side effects of a search on the machine, meters and files. */
  datatype Event =
    | OpenRawFile | OpenResultFile | WriteHeader | StartLogger | SetUserspace | WarmUp
    | RunOptimiser
    | SetOndemand | ResetGpuClocks | StopLogger | CloseRawFile | CloseResultFile

  /** The machine as the search drives it: the side effects so far, in order. */
  class Rig {
    var trace: seq<Event>

    constructor ()
      ensures trace == []
    {
      trace := [];
    }

    method Perform(e: Event)
      modifies this
      ensures trace == old(trace) + [e]
    {
      trace := trace + [e];
    }
  }

  /** Everything before the `try`; the warm-up run is skipped in a quick test. */
  function SetUp(quicktest: bool): seq<Event>
  {
    [OpenRawFile, OpenResultFile, WriteHeader, StartLogger, SetUserspace] + (if quicktest then [] else [WarmUp])
  }

  /** The `finally` block. */
  function CleanUp(): seq<Event>
  {
    [SetOndemand, ResetGpuClocks, StopLogger, CloseRawFile, CloseResultFile]
  }

  /** The side effects of one whole search. */
  function SearchTrace(quicktest: bool): seq<Event>
  {
    SetUp(quicktest) + [RunOptimiser] + CleanUp()
  }

  /** The clean-up ends every search, after the optimiser, each step exactly
      once and in its order, whether the optimiser raised or not. */
  lemma CleanUpOnceAtEnd(quicktest: bool)
    ensures var t := SearchTrace(quicktest);
      && t[|t| - 5..] == [SetOndemand, ResetGpuClocks, StopLogger, CloseRawFile, CloseResultFile]
      && t[|t| - 6] == RunOptimiser
      && (forall e :: e in CleanUp() ==> e !in t[..|t| - 5])
      && (forall i, j :: |t| - 5 <= i < j < |t| ==> t[i] != t[j])
  {
    var pre := SetUp(quicktest) + [RunOptimiser];
    var post := CleanUp();
    var t := SearchTrace(quicktest);
    assert t == pre + post;
    assert t[..|t| - 5] == pre;
    assert t[|t| - 5..] == post;
    assert t[|t| - 6] == pre[|pre| - 1] == RunOptimiser;
    forall i, j | |t| - 5 <= i < j < |t| ensures t[i] != t[j] {
      assert t[i] == post[i - |pre|] && t[j] == post[j - |pre|];
    }
  }

  /** The objective handed to the optimiser, as written. In a quick test it
      is the `quick` stand-in, which returns before the result row is
      written; otherwise the benchmark is run at the candidate (`output`),
      the meters are read afterwards (`logs`) and the run is scored by
      sample_loss as written, result-row write included. */
  function Objective(app: string, p: Hpl.Parsers, quicktest: bool,
                     quick: Bayes.Candidate -> Option<Float>,
                     output: Bayes.Candidate -> seq<string>,
                     logs: Bayes.Candidate -> (Option<seq<string>>, Option<seq<string>>)): Bayes.Candidate -> Option<Float>
  {
    c => if quicktest then quick(c) else SampleLossAsWritten(app, p, output(c), logs(c).0, logs(c).1)
  }

  /** The objective with the corrected sample_loss, which scores a run
      without a result line 0 instead of raising. */
  function CorrectedObjective(app: string, p: Hpl.Parsers, quicktest: bool,
                              quick: Bayes.Candidate -> Option<Float>,
                              output: Bayes.Candidate -> seq<string>,
                              logs: Bayes.Candidate -> (Option<seq<string>>, Option<seq<string>>)): Bayes.Candidate -> Option<Float>
  {
    c => if quicktest then quick(c) else SampleLoss(app, p, output(c), logs(c).0, logs(c).1)
  }

  /** The correction changes no score the code as written produces; it only
      turns the raise on output without Gflops or exetime into a score. */
  lemma CorrectionOnlyRescues(app: string, p: Hpl.Parsers, output: seq<string>,
                              log0: Option<seq<string>>, log1: Option<seq<string>>)
    ensures SampleLossAsWritten(app, p, output, log0, log1).Some? ==>
      SampleLoss(app, p, output, log0, log1) == SampleLossAsWritten(app, p, output, log0, log1)
    ensures SampleLossAsWritten(app, p, output, log0, log1).None? && SampleLoss(app, p, output, log0, log1).Some? ==>
      var st := Hpl.ParseLines(app, p, output);
      st.Ok? && (st.value.gflops.None? || st.value.exetime.None?)
  {
  }

  /** As written, one benchmark run without a result line at the first seed
      corner ends the whole search with an exception; with the correction
      the seed phase goes on. */
  lemma AsWrittenSearchEndsAtFirstCorner(app: string, iterations: nat, p: Hpl.Parsers, legal: seq<int>,
                                         quick: Bayes.Candidate -> Option<Float>,
                                         output: Bayes.Candidate -> seq<string>,
                                         logs: Bayes.Candidate -> (Option<seq<string>>, Option<seq<string>>),
                                         propose: Bayes.History<Float> -> Option<seq<Bayes.Restart>>)
    requires Hpl.ParseLines(app, p, output(SeedCorners()[0])).Ok?
    requires Hpl.ResultLines(app, output(SeedCorners()[0])) == []
    ensures Bayes.Optimise(iterations, Objective(app, p, false, quick, output, logs),
                           Some(SeedCorners()), [], propose, Some(legal)) == Raised
    ensures CorrectedObjective(app, p, false, quick, output, logs)(SeedCorners()[0]) == Some(Num(0.0))
  {
    var c := SeedCorners()[0];
    NoResultLineRaisesAsWritten(app, p, output(c), logs(c).0, logs(c).1);
    assert Objective(app, p, false, quick, output, logs)(c).None?;
  }

  /** bayes_search: set up, run the optimiser from the four corners with the
      GPU lattice as the legal list and the objective as written, and clean
      up whatever the outcome. `r` is what bayesian_optimisation computes:
      bayes_search itself drops it and returns None, or re-raises once the
      clean-up has run when `r` is `Raised`. `legal` is GPU_FREQS_GHZ, the
      list the generator builds at import. */
  method BayesSearch(rig: Rig, app: string, iterations: nat, quicktest: bool, p: Hpl.Parsers, legal: seq<int>,
                     quick: Bayes.Candidate -> Option<Float>,
                     output: Bayes.Candidate -> seq<string>,
                     logs: Bayes.Candidate -> (Option<seq<string>>, Option<seq<string>>),
                     propose: Bayes.History<Float> -> Option<seq<Bayes.Restart>>)
    returns (r: Result<Bayes.History<Float>>)
    requires Config.IsGpuLattice(legal)
    modifies rig
    ensures rig.trace == old(rig.trace) + SearchTrace(quicktest)
    ensures r == Bayes.Optimise(iterations, Objective(app, p, quicktest, quick, output, logs),
                                Some(SeedCorners()), [], propose, Some(legal))
  {
    SetUpRig(rig, quicktest);
    rig.Perform(RunOptimiser);
    r := Bayes.BayesianOptimisation(iterations, Objective(app, p, quicktest, quick, output, logs),
                                    Some(SeedCorners()), 0, [], propose, Some(legal));
    CleanUpRig(rig);
  }

  /** Open the files, write the header, start the meters, take control of
      the clocks and, outside a quick test, warm up. */
  method SetUpRig(rig: Rig, quicktest: bool)
    modifies rig
    ensures rig.trace == old(rig.trace) + SetUp(quicktest)
  {
    rig.Perform(OpenRawFile);
    rig.Perform(OpenResultFile);
    rig.Perform(WriteHeader);
    rig.Perform(StartLogger);
    rig.Perform(SetUserspace);
    if !quicktest {
      rig.Perform(WarmUp);
    }
  }

  /** The `finally` block: hand the clocks back, stop the meters, close the files. */
  method CleanUpRig(rig: Rig)
    modifies rig
    ensures rig.trace == old(rig.trace) + CleanUp()
  {
    rig.Perform(SetOndemand);
    rig.Perform(ResetGpuClocks);
    rig.Perform(StopLogger);
    rig.Perform(CloseRawFile);
    rig.Perform(CloseResultFile);
  }

  /** Every frequency pair the search evaluates is a legal lattice point,
      provided the optimiser's restarts stay within the search bounds. */
  lemma SearchStaysOnLattice(iterations: nat, loss: Bayes.Candidate -> Option<Float>,
                             propose: Bayes.History<Float> -> Option<seq<Bayes.Restart>>, legal: seq<int>)
    requires Config.IsGpuLattice(legal)
    requires forall h :: propose(h).Some? ==>
      forall j :: 0 <= j < |propose(h).value| ==>
        1.2 <= propose(h).value[j].x.cpu <= 2.2 && 0.135 <= propose(h).value[j].x.gpu <= 1.44
    requires Bayes.Optimise(iterations, loss, Some(SeedCorners()), [], propose, Some(legal)).Ok?
    ensures var h := Bayes.Optimise(iterations, loss, Some(SeedCorners()), [], propose, Some(legal)).value;
      forall i :: 0 <= i < |h.xp| ==> Bayes.OnLattice(h.xp[i], legal)
  {
    var h := Bayes.Optimise(iterations, loss, Some(SeedCorners()), [], propose, Some(legal)).value;
    Bayes.OptimiseHistory(iterations, loss, Some(SeedCorners()), [], propose, Some(legal));
    SeedCornersOnLattice(legal);
    forall i | 0 <= i < |h.xp| ensures Bayes.OnLattice(h.xp[i], legal) {
      if i < 4 {
        assert h.xp[i] == h.xp[..4][i];
      } else {
        var before := Bayes.Prefix(h, i);
        assert Bayes.Proposer(propose, Some(legal))(before) == Some(h.xp[i]);
        Bayes.IteratedPointsOnLattice(before, propose, legal);
      }
    }
  }
}
