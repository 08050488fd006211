/** The benchmark-output parser: a scan over the output lines that tracks the
    last two timing markers and the figures of the last result line.

    `strptime` and `float()` are oracles: `Parsers.stamp` turns a stripped
    timing line into microseconds and `Parsers.number` turns a column into a
    float; `None` from either means that the call raised, and the exception
    leaves the parser. */
module Hpl {
  import opened Common
  import opened Text
  import Config

  /** A parsed timing marker, or the -1 sentinel while none has been seen. */
  datatype Stamp = Unset | At(micros: int)

  /** The eight hours added to every parsed timing marker, in microseconds. */
  const TIMEZONE_OFFSET: int := 8 * 3600 * 1000000

  datatype Parsers = Parsers(stamp: string -> Option<int>, number: string -> Option<Float>)

  /** The four variables of the scan: (Gflops, exetime, lasttime, thistime). */
  datatype Parsed = Parsed(gflops: Option<Float>, exetime: Option<Float>, lasttime: Stamp, thistime: Stamp)

  const INITIAL: Parsed := Parsed(None, None, Unset, Unset)

  /** The prefix that marks a result line for the given application. */
  function ResultPrefix(app: string): string
  {
    if app == "hplai" then Config.HPLAI_RESULT_LINE_PREFIX else Config.HPL_RESULT_LINE_PREFIX
  }

  /** The column of Gflops and the column of the execution time. */
  function GflopsColumn(app: string): nat
  {
    if app == "hplai" then 7 else 6
  }

  function ExetimeColumn(app: string): nat
  {
    if app == "hplai" then 6 else 5
  }

  lemma ResultLineLayout(app: string)
    ensures ResultPrefix(app) == if app == "hplai" then "HPL_AI" else "WR03L2L2"
    ensures app == "hplai" ==> GflopsColumn(app) == 7 && ExetimeColumn(app) == 6
    ensures app != "hplai" ==> GflopsColumn(app) == 6 && ExetimeColumn(app) == 5
    ensures ExetimeColumn(app) < GflopsColumn(app)
  {
  }

  predicate IsTimingLine(line: string)
  {
    StartsWith(line, Config.HPL_TIMING_LINE_PREFIX)
  }

  predicate IsResultLine(app: string, line: string)
  {
    StartsWith(line, ResultPrefix(app))
  }

  /** The timing marker a timing line stands for, offset by eight hours. */
  function StampOf(p: Parsers, line: string): Stamp
  {
    match p.stamp(Strip(line))
    case None => Unset
    case Some(t) => At(t + TIMEZONE_OFFSET)
  }

  /** The (Gflops, exetime) pair a result line yields, when its columns exist
      and parse. */
  function FiguresOf(app: string, p: Parsers, line: string): Option<(Float, Float)>
  {
    var parts := Fields(line);
    if |parts| <= GflopsColumn(app) then None
    else
      match p.number(parts[GflopsColumn(app)])
      case None => None
      case Some(g) =>
        match p.number(parts[ExetimeColumn(app)])
        case None => None
        case Some(e) => Some((g, e))
  }

  /** Whether handling this line raises, whatever the state. */
  predicate LineRaises(app: string, p: Parsers, line: string)
  {
    (IsTimingLine(line) && StampOf(p, line).Unset?)
    || (IsResultLine(app, line) && FiguresOf(app, p, line).None?)
  }

  /** One pass of the loop body. A line holding "End of Tests" is matched in
      the source but changes nothing, so it needs no case of its own. */
  function Step(app: string, p: Parsers, st: Parsed, line: string): Result<Parsed>
  {
    var afterTiming :=
      if !IsTimingLine(line) then Ok(st)
      else if StampOf(p, line).Unset? then Raised
      else Ok(st.(lasttime := st.thistime, thistime := StampOf(p, line)));
    match afterTiming
    case Raised => Raised
    case Ok(s) =>
      if !IsResultLine(app, line) then Ok(s)
      else
        match FiguresOf(app, p, line)
        case None => Raised
        case Some((g, e)) => Ok(s.(gflops := Some(g), exetime := Some(e)))
  }

  /** The scan over all lines, as a left fold. */
  function ParseLines(app: string, p: Parsers, lines: seq<string>): Result<Parsed>
    decreases |lines|
  {
    if |lines| == 0 then Ok(INITIAL)
    else
      match ParseLines(app, p, lines[..|lines| - 1])
      case Raised => Raised
      case Ok(st) => Step(app, p, st, lines[|lines| - 1])
  }

  /** One iteration of the loop of parse_hpl_output_lines on the state
      (Gflops, exetime, lasttime, thistime). */
  method ScanLine(app: string, p: Parsers, st: Parsed, line: string) returns (r: Result<Parsed>)
    ensures r == Step(app, p, st, line)
  {
    var resultPrefix := if app == "hplai" then Config.HPLAI_RESULT_LINE_PREFIX else Config.HPL_RESULT_LINE_PREFIX;
    var Parsed(gflops, exetime, lasttime, thistime) := st;
    if StartsWith(line, Config.HPL_TIMING_LINE_PREFIX) {
      lasttime := thistime;
      var t := p.stamp(Strip(line));
      if t.None? {
        return Raised;
      }
      thistime := At(t.value + TIMEZONE_OFFSET);
    }
    if StartsWith(line, resultPrefix) {
      var parts := Fields(line);
      if app == "hplai" {
        if |parts| <= 7 {
          return Raised;
        }
        var g := p.number(parts[7]);
        var e := if g.Some? then p.number(parts[6]) else None;
        if e.None? {
          return Raised;
        }
        gflops, exetime := g, e;
      } else {
        if |parts| <= 6 {
          return Raised;
        }
        var g := p.number(parts[6]);
        var e := if g.Some? then p.number(parts[5]) else None;
        if e.None? {
          return Raised;
        }
        gflops, exetime := g, e;
      }
    }
    r := Ok(Parsed(gflops, exetime, lasttime, thistime));
  }

  /** parse_hpl_output_lines: the scan stops at the first line that raises. */
  method ParseHplOutputLines(app: string, p: Parsers, lines: seq<string>) returns (r: Result<Parsed>)
    ensures r == ParseLines(app, p, lines)
  {
    var st := INITIAL;
    for i := 0 to |lines|
      invariant ParseLines(app, p, lines[..i]) == Ok(st)
    {
      assert lines[..i + 1][..i] == lines[..i];
      var next := ScanLine(app, p, st, lines[i]);
      if next.Raised? {
        RaisedPersists(app, p, lines, i + 1);
        return Raised;
      }
      st := next.value;
    }
    assert lines[..|lines|] == lines;
    r := Ok(st);
  }

  /** Once the scan has raised, later lines cannot undo it. */
  lemma {:induction false} RaisedPersists(app: string, p: Parsers, lines: seq<string>, k: nat)
    requires k <= |lines| && ParseLines(app, p, lines[..k]).Raised?
    ensures ParseLines(app, p, lines).Raised?
    decreases |lines|
  {
    if k < |lines| {
      var init := lines[..|lines| - 1];
      assert init[..k] == lines[..k];
      RaisedPersists(app, p, init, k);
    } else {
      assert lines[..k] == lines;
    }
  }

  // ---------------------------------------------------------------------
  // What the scan computes

  /** The timing lines of the output, in order. */
  function TimingLines(lines: seq<string>): seq<string>
    decreases |lines|
  {
    if |lines| == 0 then []
    else TimingLines(lines[..|lines| - 1]) + (if IsTimingLine(lines[|lines| - 1]) then [lines[|lines| - 1]] else [])
  }

  /** The result lines of the output, in order. */
  function ResultLines(app: string, lines: seq<string>): seq<string>
    decreases |lines|
  {
    if |lines| == 0 then []
    else ResultLines(app, lines[..|lines| - 1]) + (if IsResultLine(app, lines[|lines| - 1]) then [lines[|lines| - 1]] else [])
  }

  /** The scan raises exactly when some line raises; the state never decides it. */
  lemma {:induction false} ParseRaisesIff(app: string, p: Parsers, lines: seq<string>)
    ensures ParseLines(app, p, lines).Raised? <==> exists i :: 0 <= i < |lines| && LineRaises(app, p, lines[i])
    decreases |lines|
  {
    if |lines| > 0 {
      var init := lines[..|lines| - 1];
      ParseRaisesIff(app, p, init);
      if exists i :: 0 <= i < |init| && LineRaises(app, p, init[i]) {
        var i :| 0 <= i < |init| && LineRaises(app, p, init[i]);
        assert lines[i] == init[i];
      }
      if exists i :: 0 <= i < |lines| && LineRaises(app, p, lines[i]) {
        var i :| 0 <= i < |lines| && LineRaises(app, p, lines[i]);
        if i < |init| {
          assert init[i] == lines[i];
        }
      }
    }
  }

  /** The returned window ends are the last two timing markers of the whole
      output, timing lines after the result line included: with none both
      stay unset, with one `lasttime` stays unset. */
  lemma {:induction false} ParseTimes(app: string, p: Parsers, lines: seq<string>)
    requires ParseLines(app, p, lines).Ok?
    ensures var st := ParseLines(app, p, lines).value;
      var ts := TimingLines(lines);
      && st.thistime == (if |ts| == 0 then Unset else StampOf(p, ts[|ts| - 1]))
      && st.lasttime == (if |ts| < 2 then Unset else StampOf(p, ts[|ts| - 2]))
    decreases |lines|
  {
    if |lines| > 0 {
      var init := lines[..|lines| - 1];
      ParseTimes(app, p, init);
      StepTimes(app, p, ParseLines(app, p, init).value, lines[|lines| - 1]);
    }
  }

  /** What one step does to the two timing markers. */
  lemma StepTimes(app: string, p: Parsers, st: Parsed, line: string)
    requires Step(app, p, st, line).Ok?
    ensures var st' := Step(app, p, st, line).value;
      && st'.thistime == (if IsTimingLine(line) then StampOf(p, line) else st.thistime)
      && st'.lasttime == (if IsTimingLine(line) then st.thistime else st.lasttime)
  {
  }

  /** Gflops and exetime come from the last result line, by column; both
      stay missing when there is no result line. */
  lemma {:induction false} ParseFigures(app: string, p: Parsers, lines: seq<string>)
    requires ParseLines(app, p, lines).Ok?
    ensures var st := ParseLines(app, p, lines).value;
      var rs := ResultLines(app, lines);
      && (rs == [] ==> st.gflops == None && st.exetime == None)
      && (rs != [] ==> FiguresOf(app, p, rs[|rs| - 1]).Some?
                       && st.gflops == Some(FiguresOf(app, p, rs[|rs| - 1]).value.0)
                       && st.exetime == Some(FiguresOf(app, p, rs[|rs| - 1]).value.1))
    decreases |lines|
  {
    if |lines| > 0 {
      ParseFigures(app, p, lines[..|lines| - 1]);
    }
  }

  /** Lines that are neither timing nor result lines (the "End of Tests"
      marker among them) leave the scan untouched. */
  lemma {:induction false} OtherLinesInert(app: string, p: Parsers, lines: seq<string>, line: string)
    requires !IsTimingLine(line) && !IsResultLine(app, line)
    ensures ParseLines(app, p, lines + [line]) == ParseLines(app, p, lines)
  {
    assert (lines + [line])[..|lines|] == lines;
  }
}
