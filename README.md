# CoDVFS autotuner core in Dafny

CoDVFS tunes the CPU and GPU clock frequencies of a GPU server for energy
efficiency (Gflops per watt) while the HPL or HPL-AI benchmark runs. A
Bayesian optimiser proposes a (CPU GHz, GPU GHz) pair and snaps it onto the
legal frequency lattices. The benchmark then runs at that pair, its output is
parsed for Gflops and a timing window, and the two power meters' logs are
averaged over that window. This project models the deterministic core of that
loop and proves what it promises:

- `config.dfy` holds the frequency bounds, the CPU lattice (tenths of a GHz)
  and the GPU lattice builder (MHz, alternating +7/+8 steps).
- `bayes.dfy` holds the optimiser's bookkeeping: the seed phase, the
  append-only iterate loop, the argmin over restarts and the projection onto
  the lattices.
- `hpl.dfy` holds the benchmark-output parser, a state machine over lines.
- `search.dfy` holds the tuning driver: the windowed meter averaging, the
  score of one run, the four seed corners and the set-up and clean-up trace
  around the optimiser.
- `common.dfy` holds the shared types: `Option`, `Result` for raising calls,
  and `Float`, a finite real or NaN.
- `text.dfy` holds the Python string operations the parsers use
  (`startswith`, `strip`, `split()`, `split(sep)`).

The GPU list is kept in integer MHz. A list value `f` is at distance
`|f/1000 - target|` from a proposal in GHz, as in the source.

Code that loops and updates variables in the source is a `method` proved
equal to a specification function; the properties are proved about those
functions. The numerical parts of the optimiser are function parameters:
the Gaussian process, expected improvement and L-BFGS-B restarts (`propose`),
the objective (`loss`), and `strptime` and `float()` (`Hpl.Parsers`). A
`None` from any of them means that call raised.

## Model

| member | source | states |
|---|---|---|
| Common.Add | codvfs/optim/search.py:179 | A float sum is NaN exactly when either side is NaN, and the exact sum otherwise. |
| Common.DivCount | codvfs/optim/search.py:177-178 | `sum / len` for a positive count is NaN exactly when the sum is, and times the count gives back the sum. |
| Text.FieldsShape | codvfs/workload/hpl.py:58 | `split()` yields nonempty fields without whitespace, and no fields exactly when the line is all whitespace. |
| Text.TokenLenMaximal | codvfs/workload/hpl.py:58 | Each field is a maximal run of non-whitespace characters. |
| Text.SplitPieces | codvfs/optim/search.py:160 | No piece of `split(",")` holds a comma. |
| Text.JoinSplit | codvfs/optim/search.py:160 | `split(",")` loses nothing: joining the pieces with commas gives back the line. |
| Text.StripTrims | codvfs/optim/search.py:160 | `strip()` removes an all-whitespace prefix and suffix and nothing else, and leaves no whitespace at either end. |
| Config.CpuFreqsShape | codvfs/config.py:18-25 | The CPU list has 11 values, 12..22 tenths of a GHz, strictly increasing, first 1.2 GHz and last 2.2 GHz, and holds exactly the integers in that range. |
| Config.GpuStepAlternates | codvfs/config.py:29-33 | The step size alternates: the step after a 7 is an 8 and the step after an 8 is a 7. |
| Config.GpuValueClosedForm | codvfs/config.py:28-33 | After n steps the running GPU frequency is 135 + 15·(n div 2) + 7·(n mod 2) MHz. |
| Config.GpuValueGrows | codvfs/config.py:31-33 | Every step adds at least 7 MHz, which is why the builder loop terminates. |
| Config.BuildGpuFreqs | codvfs/config.py:27-36 | The builder loop returns the minimum first, then every stepped value up to the maximum, and stops at the first value that exceeds it. |
| Config.GpuLatticeBounds | codvfs/config.py:20-35 | Any list the builder can return has 175 values from 135 MHz up to exactly 1440 MHz, all within the bounds. |
| Config.GpuLatticeUnique | codvfs/config.py:27-36 | The builder's output is determined: two lists it could return are equal. |
| Config.GpuLatticeAlternates | codvfs/config.py:29-33 | Consecutive lattice values differ by 7, 8, 7, 8, ... MHz, starting with 7. |
| Config.GpuLatticeIncreasing | codvfs/config.py:31-35 | The GPU lattice is strictly increasing. |
| Config.GpuLatticeMembership | codvfs/config.py:31-35 | Maximality: a value is in the lattice exactly when the alternating sequence reaches it and it does not exceed the maximum. |
| Bayes.FirstMinBelow | codvfs/optim/bayes.py:20-29 | The keep-if-strictly-smaller scan returns None exactly when no key is below the start bound; otherwise it returns the first position of the minimum. |
| Bayes.FirstMinBelowUnique | codvfs/optim/bayes.py:27-29 | The first minimum is unique, so the scan's choice is determined. |
| Bayes.BestRestartIsFirstMin | codvfs/optim/bayes.py:18-30 | sample_next_hyperparameter returns None exactly when no restart's `fun` is below 1; otherwise it returns the point of the first restart with the strictly smallest `fun`. |
| Bayes.SampleNextHyperparameter | codvfs/optim/bayes.py:20-30 | The loop over the restarts' results computes that first strict argmin. |
| Bayes.NearestGpuIsNearest | codvfs/optim/bayes.py:60-63 | The GPU scan finds nothing exactly when every distance reaches the 1e9 sentinel. Otherwise it returns a list value at minimal distance, and every earlier value is strictly farther. |
| Bayes.ScanNearestGpu | codvfs/optim/bayes.py:60-63 | The `mindiff` loop over the legal GPU list computes that nearest value. |
| Bayes.RoundTenthsNearest | codvfs/optim/bayes.py:58 | CPU rounding lands on a multiple of 0.1 at least as close as any other; an exact tie goes to the even tenth. |
| Bayes.RoundTenthsOfTenths | codvfs/optim/bayes.py:58 | A multiple of 0.1 rounds to itself. |
| Bayes.NearestGpuOfLegal | codvfs/optim/bayes.py:60-63 | A target that is already on the GPU list projects to itself. |
| Bayes.ProjectFixesLatticePoint | codvfs/optim/bayes.py:56-64 | A point whose CPU value is a tenth and whose GPU value is on the list is unchanged by projection. |
| Bayes.ProjectIdempotent | codvfs/optim/bayes.py:56-64 | Projecting a projected point changes nothing. |
| Bayes.ProjectOntoLattice | codvfs/optim/bayes.py:56-64 | A proposal within the search bounds projects onto both lattices. |
| Bayes.RoundTenthsInRange | codvfs/optim/bayes.py:58 | Within the CPU bounds, rounding stays between 12 and 22 tenths. |
| Bayes.NearestGpuInRange | codvfs/optim/bayes.py:60-63 | Within the GPU bounds, the scan finds a value of the list. |
| Bayes.EvaluateSeeds | codvfs/optim/bayes.py:36-41 | The seed loop evaluates each seed point once, in order, and appends it beside its score; it raises when an evaluation raises. |
| Bayes.ProposeNext | codvfs/optim/bayes.py:54-64 | One proposal: the best restart, then the CPU rounding and the GPU scan when a GPU list is given. |
| Bayes.RunRound | codvfs/optim/bayes.py:48-71 | One pass of the iterate loop: propose, project, evaluate, append. |
| Bayes.IteratePhase | codvfs/optim/bayes.py:47-71 | The iterate loop runs the rounds from the seeded history and stops at the first one that raises. |
| Bayes.BayesianOptimisation | codvfs/optim/bayes.py:32-72 | bayesian_optimisation computes the seed phase followed by `n_iters` rounds. |
| Bayes.IterateAppendOnly | codvfs/optim/bayes.py:47-71 | The iterate phase only appends, one point and its score per round. The earlier history survives as a prefix, each score is the loss of the point beside it, and each new point is the proposal made from the history before it. |
| Bayes.OptimiseHistory | codvfs/optim/bayes.py:34-72 | A finished run holds seed count + `n_iters` entries in both lists. The seed points (x0, or the `n_pre_samples` draws) come first and in order, `yp[i]` is the loss of `xp[i]`, and each later point is the projected proposal. |
| Bayes.IteratedPointsOnLattice | codvfs/optim/bayes.py:54-64 | With a GPU list and restarts within bounds, every iterated point lies on the lattices. |
| Hpl.ResultLineLayout | codvfs/workload/hpl.py:46-66 | For hplai the result prefix is `HPL_AI`, Gflops is column 7 and exetime is column 6. Otherwise the prefix is `WR03L2L2` and the columns are 6 and 5. |
| Hpl.ScanLine | codvfs/workload/hpl.py:53-69 | One pass of the parser's loop body over the four state variables. |
| Hpl.ParseHplOutputLines | codvfs/workload/hpl.py:38-71 | parse_hpl_output_lines computes the left fold of that step and stops at the first line that raises. |
| Hpl.RaisedPersists | codvfs/workload/hpl.py:52-66 | Once the parser has raised, later lines cannot undo it. |
| Hpl.ParseRaisesIff | codvfs/workload/hpl.py:52-66 | The parser raises exactly when some line raises: a timing line whose stamp does not parse, or a result line whose columns are missing or do not parse. |
| Hpl.ParseTimes | codvfs/workload/hpl.py:47-56 | `thistime` and `lasttime` are the last and second-to-last timing lines of the whole output, plus eight hours. Timing lines after the result line count too. With none, both stay -1; with one, `lasttime` stays -1. |
| Hpl.ParseFigures | codvfs/workload/hpl.py:49-71 | Gflops and exetime come from the last result line by column. With no result line both stay None. |
| Hpl.OtherLinesInert | codvfs/workload/hpl.py:67-69 | A line that is neither a timing nor a result line, the "End of Tests" marker included, changes no state. |
| Search.ReadMeterLog | codvfs/optim/search.py:152-173 | read_file collects the window readings of the log, and nothing when the file is missing. |
| Search.FirstLate | codvfs/optim/search.py:165-168 | The position of the first line past the window: no earlier line is late. |
| Search.WindowSamplesFilter | codvfs/optim/search.py:159-172 | The scan keeps exactly the parsable readings whose timestamp lies in [t_start, t_end], both ends included, of the lines before the first late line. |
| Search.SortedScanComplete | codvfs/optim/search.py:158-170 | With a log in time order the early exit loses nothing: every in-window reading of the whole log is kept. |
| Search.LateLineEndsScan | codvfs/optim/search.py:167-168 | The first line past the window ends the scan; later lines are ignored even when they lie inside the window. |
| Search.SkippedLineInert | codvfs/optim/search.py:159-172 | Malformed, unparsable or early lines are skipped, not fatal: the scan goes on as if they were absent. |
| Search.SumNaN | codvfs/optim/search.py:177-178 | A sum of readings is NaN exactly when one of the readings is NaN. |
| Search.SumBetween | codvfs/optim/search.py:177-178 | A sum of n readings within [lo, hi] lies within [n·lo, n·hi]. |
| Search.MeanBetween | codvfs/optim/search.py:177-178 | The average of readings within [lo, hi] lies within [lo, hi]. |
| Search.ComputeIntervalAvgPower | codvfs/optim/search.py:147-179 | _compute_interval_avg_power adds the two meters' averages, each `sum/len` of its window readings or 0.0 when there are none. |
| Search.PairPowerNaN | codvfs/optim/search.py:175-179 | The summed power is NaN exactly when either meter kept a NaN reading, and 0.0 when neither kept a reading. |
| Search.Efficiency | codvfs/optim/search.py:115 | NaN, zero or negative power scores 0.0. Otherwise efficiency × power = Gflops, and only NaN Gflops gives a NaN efficiency. |
| Search.ScoreRunFailed | codvfs/optim/search.py:108-111 | When Gflops, exetime, lasttime or thistime is None or -1, the score is 0.0 with NaN power, whatever the meter logs hold. |
| Search.NaNReadingScoresZero | codvfs/optim/search.py:114-115 | A NaN reading inside either meter's window scores the run 0.0. |
| Search.NoResultLineRaisesAsWritten | codvfs/optim/search.py:108-118 | As written, output with no result line makes sample_loss raise at the result write. The corrected version scores such a run 0.0. |
| Search.SampleLossScoresFailures | codvfs/optim/search.py:107-121 | The corrected sample_loss raises exactly when parsing the output raises, and scores a failed parse 0.0. |
| Search.SeedCornersValues | codvfs/optim/search.py:67-70 | The seed list is (2.2, 1.44), (2.2, 0.135), (1.2, 1.44), (1.2, 0.135): (max, max), (max, min), (min, max), (min, min). |
| Search.SeedCornersOnLattice | codvfs/optim/search.py:64-70 | Every seed corner is a legal lattice point that projection leaves unchanged. |
| Search.CornerOnLattice | codvfs/optim/search.py:64-70 | A CPU step paired with a legal GPU value is on the lattices and fixed by projection. |
| Search.Rig.Perform | codvfs/optim/search.py:35-143 | Performing a side effect appends it to the trace and changes nothing else. |
| Search.SetUpRig | codvfs/optim/search.py:35-57 | The set-up opens the raw file, opens the result file, writes the header, starts the meters and sets the userspace governor, in that order. Outside a quick test it then runs the warm-up. |
| Search.CleanUpRig | codvfs/optim/search.py:137-143 | The `finally` block sets the ondemand governor, resets the GPU clocks, stops the meters, closes the raw file and closes the result file, in that order. |
| Search.CleanUpOnceAtEnd | codvfs/optim/search.py:123-143 | The clean-up ends every search, after the optimiser, each step exactly once and in order. |
| Search.BayesSearch | codvfs/optim/search.py:16-143 | bayes_search performs set-up, optimiser and clean-up, whether or not the optimiser raised. `r` is the run bayesian_optimisation computes from the four corners, with the GPU lattice as the legal list and the objective as written. bayes_search itself drops `r` and returns None, or re-raises after the clean-up when `r` is Raised. |
| Search.CorrectionOnlyRescues | codvfs/optim/search.py:107-121 | Wherever sample_loss as written returns a score, the corrected version returns the same score. The correction only changes the outcome for output that parses but leaves Gflops or exetime unset. |
| Search.AsWrittenSearchEndsAtFirstCorner | codvfs/optim/search.py:108-136 | If the first corner's output parses with no result line, the optimiser run with the objective as written raises, so the whole search ends. The corrected objective scores that corner 0.0. |
| Search.SearchStaysOnLattice | codvfs/optim/search.py:67-136 | If the restarts stay within the bounds, every frequency pair the search evaluates is a legal lattice point. |

## Left out

- Floating point: every `Num` is an exact real. Binary rounding is not modelled, and neither are infinities.
- Float drift in the GPU lattice builder is not modelled. The builder sums unrounded steps, and a drifted sum could leave 1.440 out of the list; the model counts in exact MHz and always includes 1440.
- The `random_search` branch of bayesian_optimisation is not modelled. The tuner always passes `random_search=False`.
- The Gaussian-process fit, expected_improvement, scipy's `minimize` and the uniform random draws are not modelled. They are the `propose` and `draws` parameters. The restarts are assumed to stay within `bounds`, as L-BFGS-B keeps them; SearchStaysOnLattice takes that as a precondition.
- The quick-test linear formula with its `1e-9` terms is the `quick` parameter, not computed.
- `paras[0]`, the CPU list, is passed to bayesian_optimisation but never read there. CPU projection rounds to a tenth without consulting the list, and the model does the same.
- `strptime`, `float()` and the `timedelta` arithmetic are the `Hpl.Parsers` parameters, with timestamps as integer microseconds.
- Whitespace is the set of characters below U+0080 that Python's `str.isspace` accepts, U+001C to U+001F included. U+0085, U+00A0 and the other Unicode whitespace characters are not modelled.
- The benchmark run (`subprocess`, the docker command strings in hplai_command/hpl_command, `time.sleep`) is the `output` parameter. The meter files written by the power logger are the `logs` parameter. The logger thread itself (codvfs/monitor/power.py) is not part of this model.
- The per-evaluation side effects are not in the side-effect trace. These are setting the CPU and GPU clocks, writing the result row and flushing. Console `print`s and the elapsed-time report are not in it either.
- codvfs/control/cpu.py, codvfs/control/gpu.py, codvfs/main.py and powerReading.py are not part of this model: shell commands, a CLI wrapper and a polling script.
- Exceptions raised during set-up, before the `try`, are not modelled. Search.BayesSearch assumes the files open and the logger starts.
- Search.BayesSearch: the benchmark output and the two meter logs are functions of the frequency pair alone (`output(c)`, `logs(c)`). In the source each sample_loss call runs the benchmark again and the logger keeps appending to the meter files, so two evaluations of one pair can score differently. The model cannot represent that: a pair proposed twice scores the same both times.
- Bayes.ProposeNext: with no GPU list (`paras` None) and no restart below 1, the source passes None on to sample_loss and appends None if that call returns. The model raises in that case instead, because a `Candidate` cannot be None. bayes_search always passes a GPU list, so the tuner never reaches this case.

## Findings

| source | as written | input that shows it | evidently intended | confidence | as-written member | corrected member |
|---|---|---|---|---|---|---|
| codvfs/optim/search.py:108-118 | The parse-failure branch sets efficiency 0 and power NaN. The result row is then written with `{Gflops:.0f}` and `{exetime:.2f}`, which raise TypeError when either is still None. | Benchmark output with timing lines but no result line (a crashed or killed run): Gflops and exetime stay None. | The warning says "returning 0": the run should score 0.0 and the search should go on. As written, the exception leaves bayesian_optimisation and ends the whole search. | not executed | Search.NoResultLineRaisesAsWritten and Search.AsWrittenSearchEndsAtFirstCorner (on Search.SampleLossAsWritten) | Search.SampleLossScoresFailures (on Search.SampleLoss) |
