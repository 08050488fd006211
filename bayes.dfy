/** The sequential model-based optimiser: seed the history, then repeatedly
    propose a point, snap it onto the hardware lattices and evaluate it.

    The Gaussian-process fit, the expected-improvement acquisition and the
    L-BFGS-B restarts are numerical oracles here: `propose` stands for fitting
    the surrogate to the history and running the restarts from random
    starting points, and yields what each restart returned. The objective
    `loss` is an oracle too; `None` from either means that it raised. */
module Bayes {
  import opened Common
  import Config

  /** A point of the continuous search space: (CPU GHz, GPU GHz). */
  datatype Candidate = Candidate(cpu: real, gpu: real)

  /** What one optimiser restart returned: `res.fun` and `res.x`. */
  datatype Restart = Restart(fun: real, x: Candidate)

  /** The observation lists `x_list` and `y_list`. */
  datatype History<Y> = History(xp: seq<Candidate>, yp: seq<Y>)

  // ---------------------------------------------------------------------
  // The first strict minimum below a starting bound

  /** `keys[i]` is below `bound`, no key is smaller, and every key before
      position `i` is strictly larger: the first position of the minimum. */
  predicate IsFirstMinBelow(keys: seq<real>, bound: real, i: int)
  {
    && 0 <= i < |keys|
    && keys[i] < bound
    && (forall j :: 0 <= j < |keys| ==> keys[i] <= keys[j])
    && (forall j :: 0 <= j < i ==> keys[i] < keys[j])
  }

  /** The scan both selection loops of the optimiser perform: start with
      `best = bound`, and take position `i` whenever `keys[i] < best`. */
  function FirstMinBelow(keys: seq<real>, bound: real): (r: Option<nat>)
    ensures r.None? <==> forall j :: 0 <= j < |keys| ==> keys[j] >= bound
    ensures r.Some? ==> IsFirstMinBelow(keys, bound, r.value)
    decreases |keys|
  {
    if |keys| == 0 then None
    else
      var prev := FirstMinBelow(keys[..|keys| - 1], bound);
      var best := if prev.Some? then keys[prev.value] else bound;
      if keys[|keys| - 1] < best then Some(|keys| - 1) else prev
  }

  /** There is only one first minimum, so the scan's choice is determined. */
  lemma FirstMinBelowUnique(keys: seq<real>, bound: real, i: int, j: int)
    requires IsFirstMinBelow(keys, bound, i) && IsFirstMinBelow(keys, bound, j)
    ensures i == j
  {
  }

  // ---------------------------------------------------------------------
  // sample_next_hyperparameter: the best restart

  function Funs(restarts: seq<Restart>): (keys: seq<real>)
    ensures |keys| == |restarts|
    ensures forall j :: 0 <= j < |restarts| ==> keys[j] == restarts[j].fun
  {
    seq(|restarts|, j requires 0 <= j < |restarts| => restarts[j].fun)
  }

  /** The point of the first restart with the strictly smallest `res.fun`,
      provided that value is below 1; `None` when no restart beats 1. */
  function BestRestart(restarts: seq<Restart>): Option<Candidate>
  {
    match FirstMinBelow(Funs(restarts), 1.0)
    case None => None
    case Some(i) => Some(restarts[i].x)
  }

  /** sample_next_hyperparameter keeps the first restart with the strictly
      smallest value, and returns None when no restart beats 1. */
  lemma BestRestartIsFirstMin(restarts: seq<Restart>)
    ensures BestRestart(restarts).None? <==> forall j :: 0 <= j < |restarts| ==> restarts[j].fun >= 1.0
    ensures BestRestart(restarts).Some? ==>
              exists i :: IsFirstMinBelow(Funs(restarts), 1.0, i) && BestRestart(restarts).value == restarts[i].x
  {
  }

  /** The loop of sample_next_hyperparameter over the restarts' results. */
  method SampleNextHyperparameter(restarts: seq<Restart>) returns (bestX: Option<Candidate>)
    ensures bestX == BestRestart(restarts)
  {
    bestX := None;
    var bestAcquisitionValue := 1.0;
    ghost var keys := Funs(restarts);
    for i := 0 to |restarts|
      invariant match FirstMinBelow(keys[..i], 1.0)
                case None => bestX == None && bestAcquisitionValue == 1.0
                case Some(k) => k < |restarts| && bestX == Some(restarts[k].x) && bestAcquisitionValue == keys[k]
    {
      assert keys[..i + 1][..i] == keys[..i];
      var res := restarts[i];
      if res.fun < bestAcquisitionValue {
        bestAcquisitionValue := res.fun;
        bestX := Some(res.x);
      }
    }
    assert keys[..|restarts|] == keys;
  }

  // ---------------------------------------------------------------------
  // Lattice projection

  /** Distance between a lattice value in MHz and a target in GHz. */
  function GpuDistance(mhz: int, target: real): real
  {
    Abs(mhz as real / 1000.0 - target)
  }

  /** The starting `mindiff` of the GPU scan. */
  const SENTINEL: real := 1000000000.0

  function GpuDistances(legal: seq<int>, target: real): (d: seq<real>)
    ensures |d| == |legal|
    ensures forall j :: 0 <= j < |legal| ==> d[j] == GpuDistance(legal[j], target)
  {
    seq(|legal|, j requires 0 <= j < |legal| => GpuDistance(legal[j], target))
  }

  /** The legal GPU value nearest to `target`, the earliest one on a tie;
      `None` when the list is empty or every distance reaches the sentinel. */
  function NearestGpu(legal: seq<int>, target: real): Option<int>
  {
    match FirstMinBelow(GpuDistances(legal, target), SENTINEL)
    case None => None
    case Some(i) => Some(legal[i])
  }

  /** The GPU projection returns a list value at the smallest distance from
      the target, and no earlier list value is as close. */
  lemma NearestGpuIsNearest(legal: seq<int>, target: real)
    ensures NearestGpu(legal, target).None? <==>
              forall j :: 0 <= j < |legal| ==> GpuDistance(legal[j], target) >= SENTINEL
    ensures NearestGpu(legal, target).Some? ==>
              exists i :: 0 <= i < |legal| && legal[i] == NearestGpu(legal, target).value
                && GpuDistance(legal[i], target) < SENTINEL
                && (forall j :: 0 <= j < |legal| ==> GpuDistance(legal[i], target) <= GpuDistance(legal[j], target))
                && (forall j :: 0 <= j < i ==> GpuDistance(legal[i], target) < GpuDistance(legal[j], target))
  {
    var d := GpuDistances(legal, target);
    var r := FirstMinBelow(d, SENTINEL);
    if r.Some? {
      assert IsFirstMinBelow(d, SENTINEL, r.value);
    }
  }

  /** The loop that scans the GPU list, keeping the first strictly closer value. */
  method ScanNearestGpu(legal: seq<int>, target: real) returns (gpu: Option<int>)
    ensures gpu == NearestGpu(legal, target)
  {
    var mindiff := SENTINEL;
    gpu := None;
    ghost var d := GpuDistances(legal, target);
    for i := 0 to |legal|
      invariant match FirstMinBelow(d[..i], SENTINEL)
                case None => gpu == None && mindiff == SENTINEL
                case Some(k) => k < |legal| && gpu == Some(legal[k]) && mindiff == d[k]
    {
      assert d[..i + 1][..i] == d[..i];
      var f := legal[i];
      if Abs(f as real / 1000.0 - target) < mindiff {
        gpu, mindiff := Some(f), Abs(f as real / 1000.0 - target);
      }
    }
    assert d[..|legal|] == d;
  }

  /** Python's `round(x, 1)`, counted in tenths: the integer nearest to 10x,
      an exact tie going to the even neighbour. */
  function RoundTenths(x: real): int
  {
    var y := 10.0 * x;
    var f := y.Floor;
    var frac := y - f as real;
    if frac < 0.5 then f
    else if frac > 0.5 then f + 1
    else if f % 2 == 0 then f else f + 1
  }

  function TenthsDistance(x: real, m: int): real
  {
    Abs(10.0 * x - m as real)
  }

  /** CPU projection lands on the nearest multiple of 0.1, ties to even. */
  lemma RoundTenthsNearest(x: real)
    ensures forall m: int :: TenthsDistance(x, RoundTenths(x)) <= TenthsDistance(x, m)
    ensures TenthsDistance(x, RoundTenths(x)) == 0.5 ==> RoundTenths(x) % 2 == 0
  {
    var y := 10.0 * x;
    var f := y.Floor;
    forall m: int ensures TenthsDistance(x, RoundTenths(x)) <= TenthsDistance(x, m) {
      if m <= f {
        assert TenthsDistance(x, m) == y - m as real;
      } else {
        assert TenthsDistance(x, m) == m as real - y;
      }
    }
  }

  /** A multiple of 0.1 rounds to itself. */
  lemma RoundTenthsOfTenths(k: int)
    ensures RoundTenths(k as real / 10.0) == k
  {
    assert 10.0 * (k as real / 10.0) == k as real;
  }

  /** Lines 58-64: the proposal with its CPU coordinate rounded to a tenth and
      its GPU coordinate replaced by the nearest legal value. `None` when the
      GPU scan finds nothing: the source then builds a NaN coordinate, on
      which the next evaluation raises. */
  function Project(c: Candidate, legal: seq<int>): Option<Candidate>
  {
    match NearestGpu(legal, c.gpu)
    case None => None
    case Some(g) => Some(Candidate(RoundTenths(c.cpu) as real / 10.0, g as real / 1000.0))
  }

  /** Projecting a value that is already on the GPU list returns it unchanged. */
  lemma NearestGpuOfLegal(legal: seq<int>, g: int)
    requires g in legal
    ensures NearestGpu(legal, g as real / 1000.0) == Some(g)
  {
    var t := g as real / 1000.0;
    var i :| 0 <= i < |legal| && legal[i] == g;
    var d := GpuDistances(legal, t);
    assert d[i] == 0.0;
    var k := FirstMinBelow(d, SENTINEL).value;
    assert d[k] <= d[i];
    NoDistanceSameValue(legal[k], g);
  }

  /** Only the value itself is at distance zero from it. */
  lemma NoDistanceSameValue(m: int, g: int)
    requires GpuDistance(m, g as real / 1000.0) <= 0.0
    ensures m == g
  {
  }

  /** A point already on the lattices projects to itself. */
  lemma ProjectFixesLatticePoint(legal: seq<int>, k: int, g: int)
    requires g in legal
    ensures Project(Candidate(k as real / 10.0, g as real / 1000.0), legal)
            == Some(Candidate(k as real / 10.0, g as real / 1000.0))
  {
    RoundTenthsOfTenths(k);
    NearestGpuOfLegal(legal, g);
  }

  /** Projection is idempotent. */
  lemma ProjectIdempotent(c: Candidate, legal: seq<int>)
    requires Project(c, legal).Some?
    ensures Project(Project(c, legal).value, legal) == Project(c, legal)
  {
    var g := NearestGpu(legal, c.gpu).value;
    var k := RoundTenths(c.cpu);
    assert Project(c, legal) == Some(Candidate(k as real / 10.0, g as real / 1000.0));
    ProjectFixesLatticePoint(legal, k, g);
  }

  /** A point whose CPU coordinate is a lattice value of tenths and whose GPU
      coordinate is a value of the legal GPU list. */
  predicate OnLattice(c: Candidate, legal: seq<int>)
  {
    && (10.0 * c.cpu).Floor as real == 10.0 * c.cpu
    && Config.CPU_FREQ_MIN <= (10.0 * c.cpu).Floor <= Config.CPU_FREQ_MAX
    && (1000.0 * c.gpu).Floor as real == 1000.0 * c.gpu
    && (1000.0 * c.gpu).Floor in legal
  }

  /** A proposal within the search bounds projects onto both lattices. */
  lemma ProjectOntoLattice(c: Candidate, legal: seq<int>)
    requires Config.IsGpuLattice(legal)
    requires 1.2 <= c.cpu <= 2.2 && 0.135 <= c.gpu <= 1.44
    ensures Project(c, legal).Some? && OnLattice(Project(c, legal).value, legal)
  {
    NearestGpuInRange(legal, c.gpu);
    RoundTenthsInRange(c.cpu);
    var g := NearestGpu(legal, c.gpu).value;
    var k := RoundTenths(c.cpu);
    var p := Candidate(k as real / 10.0, g as real / 1000.0);
    assert Project(c, legal) == Some(p);
    assert 10.0 * p.cpu == k as real;
    assert (10.0 * p.cpu).Floor == k;
    assert 1000.0 * p.gpu == g as real;
    assert (1000.0 * p.gpu).Floor == g;
  }

  /** Within the CPU bounds, rounding stays within the CPU steps. */
  lemma RoundTenthsInRange(x: real)
    requires 1.2 <= x <= 2.2
    ensures Config.CPU_FREQ_MIN <= RoundTenths(x) <= Config.CPU_FREQ_MAX
  {
    var k := RoundTenths(x);
    RoundTenthsNearest(x);
    assert TenthsDistance(x, k) <= TenthsDistance(x, 12);
    assert TenthsDistance(x, k) <= TenthsDistance(x, 22);
  }

  /** Within the GPU bounds, the scan finds a legal value. */
  lemma NearestGpuInRange(legal: seq<int>, target: real)
    requires Config.IsGpuLattice(legal)
    requires 0.135 <= target <= 1.44
    ensures NearestGpu(legal, target).Some? && NearestGpu(legal, target).value in legal
  {
    Config.GpuLatticeBounds(legal);
    assert GpuDistance(legal[0], target) < SENTINEL;
    NearestGpuIsNearest(legal, target);
  }

  // ---------------------------------------------------------------------
  // bayesian_optimisation

  /** The next point of the iterate phase: the best restart, projected when a
      GPU list is given. `None` when the surrogate or the restarts raised, when
      no restart beat 1, or when projection finds no GPU value. With a GPU
      list, no restart below 1 makes the projection index `None` and raise;
      without one the source would pass `None` on to the loss, which a
      `Candidate` cannot express, so the model raises there as well. */
  function NextSample<Y>(h: History<Y>, propose: History<Y> -> Option<seq<Restart>>,
                         paras: Option<seq<int>>): Option<Candidate>
  {
    match propose(h)
    case None => None
    case Some(restarts) =>
      match BestRestart(restarts)
      case None => None
      case Some(x) => if paras.Some? then Project(x, paras.value) else Some(x)
  }

  /** The seed phase: every seed point evaluated in order and appended beside
      its score; raises when an evaluation raises. */
  function SeedHistory<Y>(points: seq<Candidate>, loss: Candidate -> Option<Y>): Result<History<Y>>
  {
    if forall j :: 0 <= j < |points| ==> loss(points[j]).Some? then
      Ok(History(points, seq(|points|, j requires 0 <= j < |points| && loss(points[j]).Some? => loss(points[j]).value)))
    else
      Raised
  }

  /** The proposal step of the iterate phase as a function of the history. */
  function Proposer<Y>(propose: History<Y> -> Option<seq<Restart>>, paras: Option<seq<int>>): History<Y> -> Option<Candidate>
  {
    h => NextSample(h, propose, paras)
  }

  /** One round of the iterate phase from history `h`: propose a point with
      `step`, evaluate it, append both. */
  function Round<Y>(h: History<Y>, step: History<Y> -> Option<Candidate>,
                    loss: Candidate -> Option<Y>): Result<History<Y>>
  {
    match step(h)
    case None => Raised
    case Some(p) =>
      match loss(p)
      case None => Raised
      case Some(y) => Ok(History(h.xp + [p], h.yp + [y]))
  }

  /** `n` rounds of the iterate phase from history `h`. */
  function Iterate<Y>(h: History<Y>, n: nat, step: History<Y> -> Option<Candidate>,
                      loss: Candidate -> Option<Y>): Result<History<Y>>
    decreases n
  {
    if n == 0 then Ok(h)
    else
      match Round(h, step, loss)
      case Raised => Raised
      case Ok(h1) => Iterate(h1, n - 1, step, loss)
  }

  /** `n > 0` rounds are one round and then `n - 1` more. */
  lemma IterateUnfold<Y>(h: History<Y>, n: nat, step: History<Y> -> Option<Candidate>, loss: Candidate -> Option<Y>)
    requires n > 0
    ensures Iterate(h, n, step, loss)
            == if Round(h, step, loss).Raised? then Raised else Iterate(Round(h, step, loss).value, n - 1, step, loss)
  {
  }

  /** The outcome of the first of `n > 0` rounds decides the rest: a round
      that raises ends the phase, one that succeeds leaves `n - 1` to go. */
  lemma RoundAdvances<Y>(h: History<Y>, n: nat, step: History<Y> -> Option<Candidate>,
                         loss: Candidate -> Option<Y>, next: Result<History<Y>>)
    requires n > 0 && next == Round(h, step, loss)
    ensures next.Raised? ==> Iterate(h, n, step, loss) == Raised
    ensures next.Ok? ==> Iterate(next.value, n - 1, step, loss) == Iterate(h, n, step, loss)
  {
    IterateUnfold(h, n, step, loss);
  }

  /** The seed points: `x0` when given, otherwise the `n_pre_samples` uniform draws. */
  function SeedPoints(x0: Option<seq<Candidate>>, draws: seq<Candidate>): seq<Candidate>
  {
    if x0.Some? then x0.value else draws
  }

  /** The whole run: seed phase, then `nIters` rounds. */
  function Optimise<Y>(nIters: nat, loss: Candidate -> Option<Y>, x0: Option<seq<Candidate>>,
                       draws: seq<Candidate>, propose: History<Y> -> Option<seq<Restart>>,
                       paras: Option<seq<int>>): Result<History<Y>>
  {
    match SeedHistory(SeedPoints(x0, draws), loss)
    case Raised => Raised
    case Ok(h) => Iterate(h, nIters, Proposer(propose, paras), loss)
  }

  /** The seed loop of bayesian_optimisation: evaluate each point in order
      and append it beside its score. */
  method EvaluateSeeds<Y>(points: seq<Candidate>, loss: Candidate -> Option<Y>) returns (r: Result<History<Y>>)
    ensures r == SeedHistory(points, loss)
  {
    var xList: seq<Candidate> := [];
    var yList: seq<Y> := [];
    for i := 0 to |points|
      invariant xList == points[..i] && |yList| == i
      invariant forall j :: 0 <= j < i ==> loss(points[j]) == Some(yList[j])
    {
      var y := loss(points[i]);
      if y.None? {
        return Raised;
      }
      xList := xList + [points[i]];
      yList := yList + [y.value];
    }
    assert xList == points;
    assert SeedHistory(points, loss).value.yp == yList;
    r := Ok(History(xList, yList));
  }

  /** One proposal of the iterate phase: the best restart, then the CPU
      rounding and the GPU scan when a GPU list is given. */
  method ProposeNext<Y>(h: History<Y>, propose: History<Y> -> Option<seq<Restart>>, paras: Option<seq<int>>)
    returns (next: Option<Candidate>)
    ensures next == NextSample(h, propose, paras)
  {
    var restarts := propose(h);
    if restarts.None? {
      return None;
    }
    next := SampleNextHyperparameter(restarts.value);
    if next.None? || paras.None? {
      return;
    }
    var cpu := RoundTenths(next.value.cpu);
    var gpu := ScanNearestGpu(paras.value, next.value.gpu);
    if gpu.None? {
      return None;
    }
    next := Some(Candidate(cpu as real / 10.0, gpu.value as real / 1000.0));
  }

  /** The body of the iterate loop of bayesian_optimisation: propose,
      project, evaluate, append. */
  method RunRound<Y>(h: History<Y>, propose: History<Y> -> Option<seq<Restart>>, paras: Option<seq<int>>,
                     loss: Candidate -> Option<Y>) returns (r: Result<History<Y>>)
    ensures r == Round(h, Proposer(propose, paras), loss)
  {
    var nextSample := ProposeNext(h, propose, paras);
    if nextSample.None? {
      return Raised;
    }
    var cvScore := loss(nextSample.value);
    if cvScore.None? {
      return Raised;
    }
    r := Ok(History(h.xp + [nextSample.value], h.yp + [cvScore.value]));
  }

  /** One pass of the iterate loop with `n > 0` rounds to go, stated as
      progress through those rounds. `step` is the proposal the loop body
      computes, as a function of the history. */
  method AdvanceRound<Y(!new)>(h: History<Y>, n: nat, propose: History<Y> -> Option<seq<Restart>>,
                               paras: Option<seq<int>>, loss: Candidate -> Option<Y>,
                               ghost step: History<Y> -> Option<Candidate>)
    returns (next: Result<History<Y>>)
    requires n > 0 && forall x :: step(x) == NextSample(x, propose, paras)
    ensures next.Raised? ==> Iterate(h, n, step, loss) == Raised
    ensures next.Ok? ==> Iterate(next.value, n - 1, step, loss) == Iterate(h, n, step, loss)
  {
    next := RunRound(h, propose, paras, loss);
    assert step(h) == NextSample(h, propose, paras);
    RoundAdvances(h, n, step, loss, next);
  }

  /** The iterate loop of bayesian_optimisation, from the seeded history.
      `step` is the proposal of one round; the caller passes
      `Proposer(propose, paras)`. */
  method IteratePhase<Y(!new)>(seeded: History<Y>, nIters: nat, loss: Candidate -> Option<Y>,
                               propose: History<Y> -> Option<seq<Restart>>, paras: Option<seq<int>>,
                               ghost step: History<Y> -> Option<Candidate>)
    returns (r: Result<History<Y>>)
    requires forall x :: step(x) == NextSample(x, propose, paras)
    ensures r == Iterate(seeded, nIters, step, loss)
  {
    var h := seeded;
    var n: nat := nIters;
    while n > 0
      invariant Iterate(h, n, step, loss) == Iterate(seeded, nIters, step, loss)
    {
      var next := AdvanceRound(h, n, propose, paras, loss, step);
      if next.Raised? {
        return Raised;
      }
      h, n := next.value, n - 1;
    }
    r := Ok(h);
  }

  /** bayesian_optimisation. `draws` are the uniform draws used when no `x0`
      is given (one per pre-sample). */
  method BayesianOptimisation<Y(!new)>(nIters: nat, loss: Candidate -> Option<Y>, x0: Option<seq<Candidate>>,
                                 nPreSamples: nat, draws: seq<Candidate>,
                                 propose: History<Y> -> Option<seq<Restart>>, paras: Option<seq<int>>)
    returns (r: Result<History<Y>>)
    requires x0.None? ==> |draws| == nPreSamples
    ensures r == Optimise(nIters, loss, x0, draws, propose, paras)
  {
    var points := if x0.Some? then x0.value else draws;
    var seeded := EvaluateSeeds(points, loss);
    if seeded.Raised? {
      return Raised;
    }
    r := IteratePhase(seeded.value, nIters, loss, propose, paras, Proposer(propose, paras));
  }

  /** The history as it stood when it held `i` entries. */
  function Prefix<Y>(h: History<Y>, i: nat): History<Y>
    requires i <= |h.xp| && i <= |h.yp|
  {
    History(h.xp[..i], h.yp[..i])
  }

  /** From position `lo` on, every score is the loss of the point beside it. */
  ghost predicate ScoredFrom<Y>(h: History<Y>, lo: nat, loss: Candidate -> Option<Y>)
  {
    |h.xp| == |h.yp| && forall i :: lo <= i < |h.xp| ==> loss(h.xp[i]) == Some(h.yp[i])
  }

  /** From position `lo` on, every point is the proposal made from the
      history before it. */
  ghost predicate ProposedFrom<Y>(h: History<Y>, lo: nat, step: History<Y> -> Option<Candidate>)
  {
    |h.xp| == |h.yp|
    && forall i {:trigger Prefix(h, i)} :: lo <= i < |h.xp| ==> step(Prefix(h, i)) == Some(h.xp[i])
  }

  /** The iterate phase only appends: the earlier history survives as a
      prefix, each round adds one point and its score, every score is the
      loss of the point beside it, and every new point is the (projected)
      proposal made from the history before it. */
  lemma {:induction false} IterateAppendOnly<Y>(h: History<Y>, n: nat, step: History<Y> -> Option<Candidate>,
                                               loss: Candidate -> Option<Y>)
    requires |h.xp| == |h.yp|
    requires Iterate(h, n, step, loss).Ok?
    ensures var h' := Iterate(h, n, step, loss).value;
      && |h'.xp| == |h'.yp| == |h.xp| + n
      && Prefix(h', |h.xp|) == h
      && ScoredFrom(h', |h.xp|, loss)
      && ProposedFrom(h', |h.xp|, step)
    decreases n
  {
    if n > 0 {
      IterateUnfold(h, n, step, loss);
      var p := step(h).value;
      var y := loss(p).value;
      var h1 := History(h.xp + [p], h.yp + [y]);
      IterateAppendOnly(h1, n - 1, step, loss);
      var h' := Iterate(h1, n - 1, step, loss).value;
      var m := |h.xp|;
      assert Prefix(h', m + 1) == h1;
      assert h'.xp[..m] == h'.xp[..m + 1][..m];
      assert h'.yp[..m] == h'.yp[..m + 1][..m];
      assert Prefix(h', m) == h;
      assert h'.xp[m] == h'.xp[..m + 1][m] == p;
      assert h'.yp[m] == h'.yp[..m + 1][m] == y;
      forall i | m <= i < |h'.xp| ensures loss(h'.xp[i]) == Some(h'.yp[i]) {
        if i > m {
          assert ScoredFrom(h', m + 1, loss);
        }
      }
      forall i | m <= i < |h'.xp| ensures step(Prefix(h', i)) == Some(h'.xp[i]) {
        if i == m {
          assert Prefix(h', i) == h;
        }
      }
    } else {
      assert h.xp[..|h.xp|] == h.xp && h.yp[..|h.yp|] == h.yp;
    }
  }

  /** What a successful run returns: seed count plus `nIters` entries in each
      list, the seed points first and in order, every score the loss of the
      point beside it, and every later point the projected proposal made from
      the history before it. */
  lemma OptimiseHistory<Y>(nIters: nat, loss: Candidate -> Option<Y>, x0: Option<seq<Candidate>>,
                           draws: seq<Candidate>, propose: History<Y> -> Option<seq<Restart>>,
                           paras: Option<seq<int>>)
    requires Optimise(nIters, loss, x0, draws, propose, paras).Ok?
    ensures var points := SeedPoints(x0, draws);
      var h := Optimise(nIters, loss, x0, draws, propose, paras).value;
      && |h.xp| == |h.yp| == |points| + nIters
      && h.xp[..|points|] == points
      && ScoredFrom(h, 0, loss)
      && ProposedFrom(h, |points|, Proposer(propose, paras))
  {
    var points := SeedPoints(x0, draws);
    var s := SeedHistory(points, loss).value;
    IterateAppendOnly(s, nIters, Proposer(propose, paras), loss);
    var h := Optimise(nIters, loss, x0, draws, propose, paras).value;
    assert Prefix(h, |points|) == s;
    forall i | 0 <= i < |points| ensures loss(h.xp[i]) == Some(h.yp[i]) {
      assert h.xp[i] == h.xp[..|points|][i] && h.yp[i] == h.yp[..|points|][i];
    }
  }

  /** With a GPU list given, every point after the seeds lies on the lattices,
      provided the restarts stay within the search bounds. */
  lemma IteratedPointsOnLattice<Y>(h: History<Y>, propose: History<Y> -> Option<seq<Restart>>, legal: seq<int>)
    requires Config.IsGpuLattice(legal)
    requires NextSample(h, propose, Some(legal)).Some?
    requires propose(h).Some? ==> forall j :: 0 <= j < |propose(h).value| ==>
               1.2 <= propose(h).value[j].x.cpu <= 2.2 && 0.135 <= propose(h).value[j].x.gpu <= 1.44
    ensures OnLattice(NextSample(h, propose, Some(legal)).value, legal)
  {
    var rs := propose(h).value;
    var x := BestRestart(rs).value;
    BestRestartIsFirstMin(rs);
    var i :| IsFirstMinBelow(Funs(rs), 1.0, i) && x == rs[i].x;
    ProjectOntoLattice(x, legal);
  }
}
